/**
 * The lifecycle services of packages/payments-core/src, each call run to its end with
 * nobody in between: what it leaves is what a few steps of the state machine leave, so
 * all that is proved of runs holds of every mixture of calls.
 */
module Services {
  import opened Prelude
  import opened Money
  import opened Chart
  import opened Posting
  import opened Books
  import opened Fsm
  import opened Engine
  import opened EngineOutcomes
  import opened EngineLaws
  import EngineBalances
  import EngineCaptures

  /** How a call to a provider or a bank comes back. */
  datatype ProviderReply = Approved | Declined | NotSent | Pending | Thrown

  function ReplyOf(r: ProviderReply): Reply {
    match r
    case Approved => Accepted
    case Declined => Refused
    case NotSent => NeverSent
    case Pending => Unclear
    case Thrown => Unclear
  }

  datatype Resolution = Applied | OutOfOrder | Ignored | RetryLater

  /** The tables of one tenant. */
  class Store {
    const bps: int
    var log: seq<Move>
    var intents: seq<Intent>
    var attempts: seq<Attempt>
    var refunds: seq<Refund>
    var payouts: seq<Payout>
    var disputes: seq<Dispute>
    /** provider_ref of the attempts that have one. */
    var references: map<nat, string>
    ghost var tasks: seq<Task>

    constructor (bps: int)
      ensures State() == Begin(bps)
    {
      this.bps := bps;
      log, intents, attempts, refunds, payouts, disputes, tasks := [], [], [], [], [], [], [];
      references := map[];
    }

    ghost function State(): World
      reads this
    {
      World(bps, log, intents, attempts, refunds, payouts, disputes, tasks)
    }
  }

  /** What an account of a merchant's holds. */
  function Holding(w: World, code: Code, merchant: string, currency: Currency): int {
    Bal(w.log, Acct(code, merchant, currency))
  }

  // ---------------------------------------------------------------- refunds

  /** The last part of an execution: what the provider's reply leads to. */
  function RefundOutcome(r: nat, reply: ProviderReply): Step {
    match reply
    case Approved => RefundSettle(r)
    case Declined => RefundReject(r)
    case NotSent => RefundReject(r)
    case Pending => RefundDoubt(r)
    case Thrown => RefundDoubt(r)
  }

  lemma {:induction false} OutcomeIs(w: World, r: nat, reply: ProviderReply)
    ensures Next(w, RefundOutcome(r, reply)) ==
            match reply
            case Approved => Next(w, RefundSettle(r))
            case Declined => PostRefund(w, r, CancelRefund, RefundStatus.Failed)
            case NotSent => PostRefund(w, r, CancelRefund, RefundStatus.Failed)
            case Pending => MarkRefund(w, r, RefundStatus.Indeterminate)
            case Thrown => MarkRefund(w, r, RefundStatus.Indeterminate)
  {
    EngineBalances.RejectIsPosting(w, r);
    EngineBalances.DoubtIsMark(w, r);
  }

  /** A whole execution with nobody in between. */
  function ExecuteRefund(w: World, r: nat, reply: ProviderReply): World {
    if r >= |w.refunds| then w
    else if w.refunds[r].status.Processing? then Next(w, RefundOutcome(r, reply))
    else if !w.refunds[r].status.Created? then w
    else
      match Ask(w.log, RefundMove(w, r, RequestRefund))
      case Posted => Next(PostRefund(w, r, RequestRefund, RefundStatus.Processing), RefundOutcome(r, reply))
      case Replayed => Next(w, RefundOutcome(r, reply))
      case Insufficient => MarkRefund(w, r, RefundStatus.Canceled)
      case Conflict => w
  }

  /** A refund has been settled: posted, counted on its intent within what was captured, and told by both statuses. */
  ghost predicate Settled(w: World, t: World, r: nat) {
    && r < |w.refunds| && r < |t.refunds|
    && t.refunds[r].status.Succeeded? && Has(t.log, ResourceKey(Operation.SettleRefund, r))
    && var i := w.refunds[r].intent;
    && i < |w.intents| && i < |t.intents|
    && t.intents[i].refunded == w.intents[i].refunded + w.refunds[r].amount <= t.intents[i].captured
    && (if t.intents[i].refunded == t.intents[i].captured then t.intents[i].status.Refunded?
        else t.intents[i].status.PartiallyRefunded?)
  }

  /**
   * What an execution may leave, read from the statuses before and after: nothing for a
   * refund that is not to be executed; a cancellation without any posting; success only
   * when the provider approved, with the settlement posted; failure only when it declined
   * or was never called, with the reservation returned; doubt, and no closing posting,
   * whenever the outcome is unknown. No other refund changes.
   */
  ghost predicate RefundTable(w: World, t: World, r: nat, reply: ProviderReply) {
    && |t.refunds| == |w.refunds| && (forall q :: 0 <= q < |w.refunds| && q != r ==> t.refunds[q] == w.refunds[q])
    && (r >= |w.refunds| || !(w.refunds[r].status.Created? || w.refunds[r].status.Processing?) ==> t == w)
    && (r < |w.refunds| && t.refunds[r].status != w.refunds[r].status ==>
          match t.refunds[r].status
          case Created => false
          case Processing => Has(t.log, ResourceKey(RequestRefund, r))
          case Canceled => t.log == w.log && Ask(w.log, RefundMove(w, r, RequestRefund)) == Insufficient
          case Succeeded => reply.Approved? && Has(t.log, ResourceKey(Operation.SettleRefund, r))
          case Failed => (reply.Declined? || reply.NotSent?) && Has(t.log, ResourceKey(CancelRefund, r))
          case Indeterminate => (reply.Pending? || reply.Thrown?) && |t.log| <= |w.log| + 1)
  }

  lemma {:induction false} PostRefundShape(w: World, r: nat, op: Operation, to: RefundStatus)
    ensures var t := PostRefund(w, r, op, to);
            && |t.refunds| == |w.refunds| && (forall q :: 0 <= q < |w.refunds| && q != r ==> t.refunds[q] == w.refunds[q])
            && (t == w || (r < |w.refunds| && t.refunds[r].status == to && t.log == w.log + [RefundMove(w, r, op)]
                           && Has(t.log, ResourceKey(op, r))))
  {
    if r < |w.refunds| {
      HasPush(w.log, RefundMove(w, r, op), ResourceKey(op, r));
    }
  }

  lemma {:induction false} ReportShape(w: World, r: nat, reply: ProviderReply)
    ensures var t := Next(w, RefundOutcome(r, reply));
            && |t.refunds| == |w.refunds| && (forall q :: 0 <= q < |w.refunds| && q != r ==> t.refunds[q] == w.refunds[q])
            && (r < |w.refunds| && t.refunds[r] == w.refunds[r] ==> t.log == w.log)
            && (r < |w.refunds| && t.refunds[r] != w.refunds[r] ==>
                  match reply
                  case Approved => t.refunds[r].status.Succeeded? && Has(t.log, ResourceKey(Operation.SettleRefund, r))
                  case Pending => t.refunds[r].status.Indeterminate? && t.log == w.log
                  case Thrown => t.refunds[r].status.Indeterminate? && t.log == w.log
                  case _ => t.refunds[r].status.Failed? && Has(t.log, ResourceKey(CancelRefund, r)))
  {
    match reply
    case Approved => SettlementShape(w, r);
    case Declined =>
      EngineBalances.RejectIsPosting(w, r);
      PostRefundShape(w, r, CancelRefund, RefundStatus.Failed);
    case NotSent =>
      EngineBalances.RejectIsPosting(w, r);
      PostRefundShape(w, r, CancelRefund, RefundStatus.Failed);
    case _ => EngineBalances.DoubtIsMark(w, r);
  }

  /** The checks of a settlement, one after the other. */
  predicate Settles(w: World, r: nat) {
    && RefundPosts(w, r, Operation.SettleRefund, RefundStatus.Succeeded)
    && w.refunds[r].intent < |w.intents|
    && var intent := w.intents[w.refunds[r].intent];
    && var refunded := intent.refunded + w.refunds[r].amount;
    && 0 <= refunded <= intent.captured
    && Legal(w, w.refunds[r].intent, if refunded == intent.captured then IntentStatus.Refunded else IntentStatus.PartiallyRefunded)
  }

  lemma {:induction false} SettlementIs(w: World, r: nat)
    ensures Next(w, RefundSettle(r)) == if Settles(w, r) then SettledRefund(w, r) else w
  {
  }

  lemma {:induction false} SettledIsSettled(w: World, r: nat)
    requires Settles(w, r)
    ensures Settled(w, SettledRefund(w, r), r)
  {
    HasPush(w.log, RefundMove(w, r, Operation.SettleRefund), ResourceKey(Operation.SettleRefund, r));
  }

  lemma {:induction false} SettlementShape(w: World, r: nat)
    ensures var t := Next(w, RefundSettle(r));
            && |t.refunds| == |w.refunds| && (forall q :: 0 <= q < |w.refunds| && q != r ==> t.refunds[q] == w.refunds[q])
            && (t == w || (r < |w.refunds| && t.refunds[r].status.Succeeded? && t.refunds[r] != w.refunds[r]
                           && Has(t.log, ResourceKey(Operation.SettleRefund, r))))
  {
    SettlementIs(w, r);
    if Settles(w, r) {
      SettledIsSettled(w, r);
      SettlesOnce(w, r);
    }
  }

  lemma {:induction false} SettlesOnce(w: World, r: nat)
    requires Settles(w, r)
    ensures !w.refunds[r].status.Succeeded?
  {
    OutcomesAreLegalIff(AttemptStatus.Created, w.refunds[r].status, Requested, DisputeStatus.Open);
  }

  lemma {:induction false} RefundExecutionTable(w: World, r: nat, reply: ProviderReply)
    ensures RefundTable(w, ExecuteRefund(w, r, reply), r, reply)
  {
    var mid := PostRefund(w, r, RequestRefund, RefundStatus.Processing);
    PostRefundShape(w, r, RequestRefund, RefundStatus.Processing);
    ReportShape(w, r, reply);
    ReportShape(mid, r, reply);
  }

  /**
   * What an execution leaves in any state that can be reached, told by the status, the
   * balances and the reply: a new refund that is not funded is canceled, any other is
   * reserved; then it is settled if the provider approved and the settlement is covered,
   * returned if the provider declined or was never called, and in doubt otherwise.
   */
  ghost predicate RefundExecuted(w: World, t: World, r: nat, reply: ProviderReply) {
    if r >= |w.refunds| || !(w.refunds[r].status.Created? || w.refunds[r].status.Processing?) then t == w
    else
      var row := w.refunds[r];
      if row.status.Created? && Holding(w, MerchantAvailable, row.merchant, row.currency) < row.amount then
        t == WithRefund(w, r, RefundStatus.Canceled)
      else
        var log := if row.status.Created? then w.log + [RefundMove(w, r, RequestRefund)] else w.log;
        match reply
        case Approved =>
          && row.intent < |w.intents|
          && t == (if CanSettle(w, r) then SettledRefund(w, r).(log := log + [RefundMove(w, r, Operation.SettleRefund)])
                   else WithRefund(w, r, RefundStatus.Processing).(log := log))
        case Declined => t == WithRefund(w, r, RefundStatus.Failed).(log := log + [RefundMove(w, r, CancelRefund)])
        case NotSent => t == WithRefund(w, r, RefundStatus.Failed).(log := log + [RefundMove(w, r, CancelRefund)])
        case Pending => t == WithRefund(w, r, RefundStatus.Indeterminate).(log := log)
        case Thrown => t == WithRefund(w, r, RefundStatus.Indeterminate).(log := log)
  }

  /** A reply to a refund in processing. */
  lemma {:induction false} ReplyIsExecuted(w: World, r: nat, reply: ProviderReply)
    requires Reachable(w) && r < |w.refunds| && w.refunds[r].status.Processing?
    ensures RefundExecuted(w, Next(w, RefundOutcome(r, reply)), r, reply)
  {
    SettlementTakesEffectIff(w, r);
    RejectionTakesEffectIff(w, r);
    RefundMarksTakeEffectIff(w, r);
    assert WithRefund(w, r, RefundStatus.Processing) == w;
  }

  /** A reservation changes neither what clearing covers nor what is left to refund. */
  lemma {:induction false} ReservedSettlesAlike(w: World, mid: World, r: nat)
    requires r < |w.refunds| && w.refunds[r].intent < |w.intents|
    requires mid == WithRefund(w, r, RefundStatus.Processing).(log := w.log + [RefundMove(w, r, RequestRefund)])
    ensures CanSettle(mid, r) == CanSettle(w, r)
  {
    var row := w.refunds[r];
    var m, x := RefundMove(w, r, RequestRefund), Acct(ProviderClearing, row.merchant, row.currency);
    BalPush(w.log, m, x);
    ReservingLeavesClearing(m, x);
    assert mid.intents == w.intents && mid.refunds[r] == row.(status := RefundStatus.Processing);
  }

  lemma {:induction false} ReservingLeavesClearing(m: Move, x: Acct)
    requires m.form == Legs(RequestRefund) && x.code == ProviderClearing
    ensures Effect(m, x) == 0
  {
  }

  lemma {:induction false} ReservedIsAlike(w: World, mid: World, r: nat, status: RefundStatus)
    requires r < |w.refunds|
    requires mid == WithRefund(w, r, RefundStatus.Processing).(log := w.log + [RefundMove(w, r, RequestRefund)])
    ensures RefundMove(mid, r, Operation.SettleRefund) == RefundMove(w, r, Operation.SettleRefund)
    ensures RefundMove(mid, r, CancelRefund) == RefundMove(w, r, CancelRefund)
    ensures WithRefund(mid, r, status) == WithRefund(w, r, status).(log := mid.log)
  {
  }

  lemma {:induction false} ReservedIsExecuted(w: World, mid: World, t: World, r: nat, reply: ProviderReply)
    requires r < |w.refunds| && w.refunds[r].status.Created? && w.refunds[r].intent < |w.intents|
    requires Holding(w, MerchantAvailable, w.refunds[r].merchant, w.refunds[r].currency) >= w.refunds[r].amount
    requires mid == WithRefund(w, r, RefundStatus.Processing).(log := w.log + [RefundMove(w, r, RequestRefund)])
    requires RefundExecuted(mid, t, r, reply)
    ensures RefundExecuted(w, t, r, reply)
  {
    ReservedSettlesAlike(w, mid, r);
    ReservedIsAlike(w, mid, r, RefundStatus.Succeeded);
    ReservedIsAlike(w, mid, r, RefundStatus.Processing);
    ReservedIsAlike(w, mid, r, RefundStatus.Failed);
    ReservedIsAlike(w, mid, r, RefundStatus.Indeterminate);
  }

  lemma {:induction false} RefundIsExecuted(w: World, r: nat, reply: ProviderReply)
    requires Reachable(w)
    ensures RefundExecuted(w, ExecuteRefund(w, r, reply), r, reply)
    ensures Reachable(ExecuteRefund(w, r, reply))
  {
    RefundExecutionIsRun(w, r, reply);
    AfterIsReachable(w, RefundScript(w, r, reply));
    if r < |w.refunds| && w.refunds[r].status.Processing? {
      ReplyIsExecuted(w, r, reply);
    } else if r < |w.refunds| && w.refunds[r].status.Created? {
      ReachableAgrees(w);
      FreshRefundAsks(w, r);
      IntentOfRefund(w, r);
      RefundMarksTakeEffectIff(w, r);
      if Holding(w, MerchantAvailable, w.refunds[r].merchant, w.refunds[r].currency) >= w.refunds[r].amount {
        ReservationTakesEffectIff(w, r);
        var mid := Next(w, RefundReserve(r));
        NextIsReachable(w, RefundReserve(r));
        ReplyIsExecuted(mid, r, reply);
        ReservedIsExecuted(w, mid, ExecuteRefund(w, r, reply), r, reply);
      }
    }
  }

  /** What recording a success leaves: the settlement of a refund in processing or in doubt, if it is covered. */
  ghost predicate RefundRecorded(w: World, t: World, r: nat) {
    && r < |w.refunds| && w.refunds[r].intent < |w.intents|
    && t == if (w.refunds[r].status.Processing? || w.refunds[r].status.Indeterminate?) && CanSettle(w, r)
            then SettledRefund(w, r) else w
  }

  lemma {:induction false} RefundIsRecorded(w: World, r: nat)
    requires r < |w.refunds|
    ensures var t := if Settles(w, r) then SettledRefund(w, r) else w;
            && Next(w, RefundSettle(r)) == t
            && (t == w || Settled(w, t, r))
            && (Reachable(w) ==> RefundRecorded(w, t, r))
  {
    SettlementIs(w, r);
    if Settles(w, r) {
      SettledIsSettled(w, r);
    }
    if Reachable(w) {
      SettlementTakesEffectIff(w, r);
    }
  }

  /** What a resolution leaves of a refund in processing or in doubt: settled if that is covered, or returned. */
  ghost predicate RefundResolved(w: World, t: World, r: nat, succeeded: bool) {
    && r < |w.refunds| && w.refunds[r].intent < |w.intents|
    && t == if !succeeded then WithRefund(w, r, RefundStatus.Failed).(log := w.log + [RefundMove(w, r, CancelRefund)])
            else if CanSettle(w, r) then SettledRefund(w, r)
            else w
  }

  lemma {:induction false} RefundIsResolved(w: World, r: nat, succeeded: bool)
    requires Reachable(w) && r < |w.refunds| && (w.refunds[r].status.Processing? || w.refunds[r].status.Indeterminate?)
    ensures RefundResolved(w, Next(w, if succeeded then RefundSettle(r) else RefundReject(r)), r, succeeded)
  {
    SettlementTakesEffectIff(w, r);
    RejectionTakesEffectIff(w, r);
  }

  class RefundService {
    const store: Store

    constructor (store: Store)
      ensures this.store == store
    {
      this.store := store;
    }

    /** What the refunds in flight on an intent claim of it. */
    method InFlight(i: nat) returns (total: int)
      ensures total == Sum(store.refunds, Reserving(i))
    {
      total := 0;
      var k := 0;
      while k < |store.refunds|
        invariant 0 <= k <= |store.refunds| && total == Sum(store.refunds[..k], Reserving(i))
      {
        var r := store.refunds[k];
        assert store.refunds[..k + 1] == store.refunds[..k] + [r];
        SumPush(store.refunds[..k], r, Reserving(i));
        if r.intent == i && (r.status.Created? || r.status.Processing?) {
          total := total + r.amount;
        }
        k := k + 1;
      }
      assert store.refunds[..k] == store.refunds;
    }

    method BeginIn(i: nat, asked: Option<int>) returns (r: Option<nat>)
      modifies store
      ensures store.State() == Next(old(store.State()), RefundBegin(i, asked))
      ensures r.Some? <==>
                && i < |old(store.intents)|
                && (old(store.intents)[i].status.Succeeded? || old(store.intents)[i].status.PartiallyRefunded?)
                && 0 < (if asked.Some? then asked.value else Remaining(old(store.State()), i)) <= Remaining(old(store.State()), i)
      ensures r.None? ==> store.State() == old(store.State())
      ensures r.Some? ==>
                && r.value == old(|store.refunds|) && |store.refunds| == r.value + 1
                && store.refunds[r.value].intent == i && store.refunds[r.value].status.Created?
                && store.refunds[r.value].amount == if asked.Some? then asked.value else Remaining(old(store.State()), i)
    {
      if i >= |store.intents| {
        return None;
      }
      var intent := store.intents[i];
      if !intent.status.Succeeded? && !intent.status.PartiallyRefunded? {
        return None;
      }
      var inFlight := InFlight(i);
      var remaining := intent.captured - intent.refunded - inFlight;
      var requested := if asked.Some? then asked.value else if remaining > 0 then remaining else 0;
      if requested <= 0 || requested > remaining {
        return None;
      }
      r := Some(|store.refunds|);
      store.refunds := store.refunds
        + [Refund(i, intent.merchant, intent.currency, requested, RefundStatus.Created)];
    }

    /** A two-legged posting of the refund, with its status in the hook. */
    method Post(r: nat, op: Operation, to: RefundStatus) returns (answer: Answer)
      requires r < |store.refunds|
      modifies store
      ensures answer == Ask(old(store.log), RefundMove(old(store.State()), r, op))
      ensures store.State() == PostRefund(old(store.State()), r, op, to)
      ensures store.State() != old(store.State()) ==>
                store.refunds[r].status == to && FindMove(store.log, ResourceKey(op, r)).Some?
    {
      var row := store.refunds[r];
      var m := Move(ResourceKey(op, r), Legs(op), row.merchant, row.currency, row.amount);
      answer := Ask(store.log, m);
      if answer == Posted && CanTransition(RefundTransitions, row.status, to) {
        store.log := store.log + [m];
        store.refunds := store.refunds[r := row.(status := to)];
      }
    }

    method Mark(r: nat, to: RefundStatus)
      requires r < |store.refunds|
      modifies store
      ensures store.State() == MarkRefund(old(store.State()), r, to)
    {
      if CanTransition(RefundTransitions, store.refunds[r].status, to) {
        store.refunds := store.refunds[r := store.refunds[r].(status := to)];
      }
    }

    /** recordSucceeded: settles the refund and its intent in one transaction. */
    method RecordSucceeded(r: nat)
      requires r < |store.refunds|
      modifies store
      ensures store.State() == Next(old(store.State()), RefundSettle(r))
      ensures store.State() == old(store.State()) || Settled(old(store.State()), store.State(), r)
      ensures Reachable(old(store.State())) ==> RefundRecorded(old(store.State()), store.State(), r)
    {
      RefundIsRecorded(store.State(), r);
      TrySettle(r);
    }

    method TrySettle(r: nat)
      requires r < |store.refunds|
      modifies store
      ensures store.State() == if Settles(old(store.State()), r) then SettledRefund(old(store.State()), r) else old(store.State())
    {
      var row := store.refunds[r];
      var m := Move(ResourceKey(Operation.SettleRefund, r), Legs(Operation.SettleRefund), row.merchant, row.currency, row.amount);
      assert m == RefundMove(store.State(), r, Operation.SettleRefund);
      if Ask(store.log, m) != Posted || !CanTransition(RefundTransitions, row.status, RefundStatus.Succeeded) {
        return;
      }
      if row.intent >= |store.intents| {
        return;
      }
      var intent := store.intents[row.intent];
      var refunded := intent.refunded + row.amount;
      var target := if refunded == intent.captured then IntentStatus.Refunded else IntentStatus.PartiallyRefunded;
      if refunded < 0 || refunded > intent.captured || !CanTransition(IntentTransitions, intent.status, target) {
        return;
      }
      assert Settles(store.State(), r);
      store.log, store.refunds, store.intents :=
        store.log + [m],
        store.refunds[r := row.(status := RefundStatus.Succeeded)],
        store.intents[row.intent := intent.(status := target, refunded := refunded)];
    }

    method Report(r: nat, reply: ProviderReply)
      requires r < |store.refunds|
      modifies store
      ensures store.State() == Next(old(store.State()), RefundOutcome(r, reply))
    {
      OutcomeIs(store.State(), r, reply);
      match reply {
        case Approved => RecordSucceeded(r);
        case Declined => var answer := Post(r, CancelRefund, RefundStatus.Failed);
        case NotSent => var answer := Post(r, CancelRefund, RefundStatus.Failed);
        case Pending => Mark(r, RefundStatus.Indeterminate);
        case Thrown => Mark(r, RefundStatus.Indeterminate);
      }
    }

    /** Phase two: reserve, call the provider, record what it says. */
    method Execute(r: nat, reply: ProviderReply)
      modifies store
      ensures store.State() == ExecuteRefund(old(store.State()), r, reply)
      ensures RefundTable(old(store.State()), store.State(), r, reply)
      ensures Reachable(old(store.State())) ==>
                RefundExecuted(old(store.State()), store.State(), r, reply) && Reachable(store.State())
    {
      RefundExecutionTable(store.State(), r, reply);
      if Reachable(store.State()) {
        RefundIsExecuted(store.State(), r, reply);
      }
      if r >= |store.refunds| {
        return;
      }
      var status := store.refunds[r].status;
      if !status.Created? && !status.Processing? {
        return;
      }
      if status.Created? {
        var answer := Post(r, RequestRefund, RefundStatus.Processing);
        if answer == Conflict {
          return;
        }
        if answer == Insufficient {
          Mark(r, RefundStatus.Canceled);
          return;
        }
      }
      Report(r, reply);
    }

    /** Resolution by a verified source. */
    method Resolve(r: nat, succeeded: bool) returns (answer: Resolution)
      modifies store
      ensures answer == Ignored <==> r >= |old(store.refunds)|
      ensures answer == OutOfOrder <==> r < |old(store.refunds)| && Terminal(RefundTransitions, old(store.refunds)[r].status)
      ensures answer == RetryLater <==> r < |old(store.refunds)| && old(store.refunds)[r].status.Created?
      ensures answer != Applied ==> store.State() == old(store.State())
      ensures answer == Applied ==>
                store.State() == Next(old(store.State()), if succeeded then RefundSettle(r) else RefundReject(r))
      ensures answer == Applied && Reachable(old(store.State())) ==>
                RefundResolved(old(store.State()), store.State(), r, succeeded)
    {
      if r >= |store.refunds| {
        return Ignored;
      }
      var status := store.refunds[r].status;
      if status.Succeeded? || status.Failed? || status.Canceled? {
        return OutOfOrder;
      }
      if !status.Processing? && !status.Indeterminate? {
        return RetryLater;
      }
      if Reachable(store.State()) {
        RefundIsResolved(store.State(), r, succeeded);
      }
      if succeeded {
        RecordSucceeded(r);
      } else {
        var posted := Post(r, CancelRefund, RefundStatus.Failed);
      }
      return Applied;
    }
  }

  // ---------------------------------------------------------------- payouts

  /** What the bank's reply to a payout leads to. */
  function ReportPayout(w: World, p: nat, reply: Reply): World {
    match reply
    case Accepted => PostPayout(w, p, SettlePayout, PayoutStatus.Paid)
    case Refused => PostPayout(w, p, FailPayout, PayoutStatus.Failed)
    case NeverSent => PostPayout(w, p, FailPayout, PayoutStatus.Failed)
    case Unclear => MarkPayout(w, p, PayoutStatus.Indeterminate)
  }

  /** A whole execution with nobody in between. */
  function ExecutePayout(w: World, p: nat, reply: Reply): World
  {
    if p >= |w.payouts| then w
    else if w.payouts[p].status.Requested? then
      match Ask(w.log, PayoutMove(w, p, EmitPayout))
      case Posted => ReportPayout(PostPayout(w, p, EmitPayout, PayoutStatus.InTransit), p, reply)
      case Replayed => ReportPayout(w, p, reply)
      case Insufficient => MarkPayout(w, p, PayoutStatus.Failed)
      case Conflict => w
    else if w.payouts[p].status.InTransit? then ReportPayout(w, p, reply)
    else w
  }

  /** The state after a task that began in w has come to its end. */
  function Finish(w: World, t: World, p: nat): World {
    t.(tasks := w.tasks + [Ended(p)])
  }

  function Advances(k: nat, reply: Reply): seq<Step> {
    [TaskAdvance(k, reply), TaskAdvance(k, reply), TaskAdvance(k, reply), TaskAdvance(k, reply)]
  }

  /** The same table for payouts: requested, in transit and the three ends. */
  ghost predicate PayoutTable(w: World, t: World, p: nat, reply: ProviderReply) {
    && |t.payouts| == |w.payouts| && (forall q :: 0 <= q < |w.payouts| && q != p ==> t.payouts[q] == w.payouts[q])
    && (p >= |w.payouts| || !(w.payouts[p].status.Requested? || w.payouts[p].status.InTransit?) ==>
          t.payouts == w.payouts && t.log == w.log)
    && (p < |w.payouts| && t.payouts[p].status != w.payouts[p].status ==>
          match t.payouts[p].status
          case Requested => false
          case InTransit => Has(t.log, ResourceKey(EmitPayout, p))
          case Paid => reply.Approved? && Has(t.log, ResourceKey(SettlePayout, p))
          case Failed =>
            || (t.log == w.log && Ask(w.log, PayoutMove(w, p, EmitPayout)) == Insufficient)
            || ((reply.Declined? || reply.NotSent?) && Has(t.log, ResourceKey(FailPayout, p)))
          case Indeterminate => (reply.Pending? || reply.Thrown?) && |t.log| <= |w.log| + 1)
  }

  lemma {:induction false} PostPayoutShape(w: World, p: nat, op: Operation, to: PayoutStatus)
    ensures var t := PostPayout(w, p, op, to);
            && |t.payouts| == |w.payouts| && (forall q :: 0 <= q < |w.payouts| && q != p ==> t.payouts[q] == w.payouts[q])
            && (t == w || (p < |w.payouts| && t.payouts[p].status == to && t.log == w.log + [PayoutMove(w, p, op)]
                           && Has(t.log, ResourceKey(op, p))))
  {
    if p < |w.payouts| {
      HasPush(w.log, PayoutMove(w, p, op), ResourceKey(op, p));
    }
  }

  lemma {:induction false} PayoutReportShape(w: World, p: nat, reply: Reply)
    ensures var t := ReportPayout(w, p, reply);
            && |t.payouts| == |w.payouts| && (forall q :: 0 <= q < |w.payouts| && q != p ==> t.payouts[q] == w.payouts[q])
            && (t == w || (p < |w.payouts| &&
                  match reply
                  case Accepted => t.payouts[p].status.Paid? && Has(t.log, ResourceKey(SettlePayout, p))
                  case Unclear => t.payouts[p].status.Indeterminate? && t.log == w.log
                  case _ => t.payouts[p].status.Failed? && Has(t.log, ResourceKey(FailPayout, p))))
  {
    PostPayoutShape(w, p, SettlePayout, PayoutStatus.Paid);
    PostPayoutShape(w, p, FailPayout, PayoutStatus.Failed);
  }

  lemma {:induction false} PayoutExecutionTable(w: World, p: nat, reply: ProviderReply)
    ensures PayoutTable(w, ExecutePayout(w, p, ReplyOf(reply)), p, reply)
  {
    PostPayoutShape(w, p, EmitPayout, PayoutStatus.InTransit);
    PayoutReportShape(w, p, ReplyOf(reply));
    PayoutReportShape(PostPayout(w, p, EmitPayout, PayoutStatus.InTransit), p, ReplyOf(reply));
  }

  /**
   * What an execution leaves in any state that can be reached: a requested payout that is
   * not funded fails, any other is emitted; then it is paid if the bank accepted and the
   * platform's cash covers it, returned if the bank refused or was never called, and
   * otherwise, whatever was thrown, indeterminate with its money held in transit.
   */
  ghost predicate PayoutExecuted(w: World, t: World, p: nat, reply: ProviderReply) {
    var t := t.(tasks := w.tasks);
    if p >= |w.payouts| || !(w.payouts[p].status.Requested? || w.payouts[p].status.InTransit?) then t == w
    else
      var row := w.payouts[p];
      if row.status.Requested? && Holding(w, MerchantAvailable, row.merchant, row.currency) < row.amount then
        t == WithPayout(w, p, PayoutStatus.Failed, false)
      else
        var log := if row.status.Requested? then w.log + [PayoutMove(w, p, EmitPayout)] else w.log;
        match reply
        case Approved =>
          t == (if row.amount <= Holding(w, PlatformCash, row.merchant, row.currency)
                then WithPayout(w, p, PayoutStatus.Paid, false).(log := log + [PayoutMove(w, p, SettlePayout)])
                else WithPayout(w, p, PayoutStatus.InTransit, true).(log := log))
        case Declined => t == WithPayout(w, p, PayoutStatus.Failed, false).(log := log + [PayoutMove(w, p, FailPayout)])
        case NotSent => t == WithPayout(w, p, PayoutStatus.Failed, false).(log := log + [PayoutMove(w, p, FailPayout)])
        case Pending => t == WithPayout(w, p, PayoutStatus.Indeterminate, true).(log := log)
        case Thrown => t == WithPayout(w, p, PayoutStatus.Indeterminate, true).(log := log)
  }

  /** The bank's reply to a payout in transit. */
  lemma {:induction false} BankReplyIsExecuted(w: World, p: nat, reply: ProviderReply)
    requires OnItsWay(w, p) && w.payouts[p].status.InTransit?
    ensures PayoutExecuted(w, ReportPayout(w, p, ReplyOf(reply)), p, reply)
  {
    assert PayoutOk(w.payouts[p]);
    PayoutClosesIff(w, p);
    assert WithPayout(w, p, PayoutStatus.InTransit, true) == w;
  }

  lemma {:induction false} EmittedIsExecuted(w: World, mid: World, t: World, p: nat, reply: ProviderReply)
    requires p < |w.payouts| && w.payouts[p].status.Requested?
    requires Holding(w, MerchantAvailable, w.payouts[p].merchant, w.payouts[p].currency) >= w.payouts[p].amount
    requires mid == WithPayout(w, p, PayoutStatus.InTransit, true).(log := w.log + [PayoutMove(w, p, EmitPayout)])
    requires PayoutExecuted(mid, t, p, reply)
    ensures PayoutExecuted(w, t, p, reply)
  {
    BalPush(w.log, PayoutMove(w, p, EmitPayout), Acct(PlatformCash, w.payouts[p].merchant, w.payouts[p].currency));
    assert PayoutMove(mid, p, SettlePayout) == PayoutMove(w, p, SettlePayout);
    assert PayoutMove(mid, p, FailPayout) == PayoutMove(w, p, FailPayout);
    assert forall s, held :: WithPayout(mid, p, s, held) == WithPayout(w, p, s, held).(log := mid.log);
  }

  lemma {:induction false} PayoutIsExecuted(w: World, p: nat, reply: ProviderReply)
    requires Reachable(w)
    ensures PayoutExecuted(w, ExecutePayout(w, p, ReplyOf(reply)), p, reply)
  {
    if p < |w.payouts| && w.payouts[p].status.InTransit? {
      ReachableIsOnItsWay(w, p);
      BankReplyIsExecuted(w, p, reply);
    } else if p < |w.payouts| && w.payouts[p].status.Requested? {
      ReachableAgrees(w);
      FreshPayoutAsks(w, p);
      assert PayoutOk(w.payouts[p]);
      if Holding(w, MerchantAvailable, w.payouts[p].merchant, w.payouts[p].currency) >= w.payouts[p].amount {
        EmissionTakesEffectIff(w, p);
        var mid := PostPayout(w, p, EmitPayout, PayoutStatus.InTransit);
        EmittedIsOnItsWay(w, p);
        BankReplyIsExecuted(mid, p, reply);
        EmittedIsExecuted(w, mid, ExecutePayout(w, p, ReplyOf(reply)), p, reply);
      }
    }
  }

  /** The same of the state with the process that has come to its end, which some run reaches. */
  lemma {:induction false} FinishIsExecuted(w: World, p: nat, reply: ProviderReply)
    requires p < |w.payouts|
    ensures var t := Finish(w, ExecutePayout(w, p, ReplyOf(reply)), p);
            && PayoutTable(w, t, p, reply)
            && (Reachable(w) ==> PayoutExecuted(w, t, p, reply) && Reachable(t))
  {
    PayoutExecutionTable(w, p, reply);
    if Reachable(w) {
      PayoutIsExecuted(w, p, reply);
      PayoutExecutionIsRun(w, p, ReplyOf(reply));
      AfterIsReachable(w, [PayoutStart(p)] + Advances(|w.tasks|, ReplyOf(reply)));
    }
  }

  /** What a resolution leaves of a payout on its way: paid if the platform's cash covers it, or returned. */
  ghost predicate PayoutResolved(w: World, t: World, p: nat, paid: bool) {
    && p < |w.payouts|
    && t.(tasks := w.tasks) ==
       if !paid then WithPayout(w, p, PayoutStatus.Failed, false).(log := w.log + [PayoutMove(w, p, FailPayout)])
       else if w.payouts[p].amount <= Holding(w, PlatformCash, w.payouts[p].merchant, w.payouts[p].currency)
       then WithPayout(w, p, PayoutStatus.Paid, false).(log := w.log + [PayoutMove(w, p, SettlePayout)])
       else w
  }

  lemma {:induction false} PayoutIsResolved(w: World, p: nat, paid: bool)
    requires Reachable(w) && p < |w.payouts| && (w.payouts[p].status.InTransit? || w.payouts[p].status.Indeterminate?)
    ensures var t := Finish(w, ReportPayout(w, p, if paid then Accepted else Refused), p);
            PayoutResolved(w, t, p, paid) && Reachable(t)
  {
    ReachableIsOnItsWay(w, p);
    PayoutClosesIff(w, p);
    PayoutResolutionIsRun(w, p, paid, Unclear);
    var step := TaskAdvance(|w.tasks|, Unclear);
    AfterIsReachable(w, [PayoutHear(p, paid)] + [step] + [step]);
  }

  class PayoutService {
    const store: Store

    constructor (store: Store)
      ensures this.store == store
    {
      this.store := store;
    }

    /** What the requested payouts of a merchant have already committed. */
    method Committed(merchant: string, currency: Currency) returns (total: int)
      ensures total == Sum(store.payouts, AskedFor(merchant, currency))
    {
      total := 0;
      var k := 0;
      while k < |store.payouts|
        invariant 0 <= k <= |store.payouts| && total == Sum(store.payouts[..k], AskedFor(merchant, currency))
      {
        var p := store.payouts[k];
        assert store.payouts[..k + 1] == store.payouts[..k] + [p];
        SumPush(store.payouts[..k], p, AskedFor(merchant, currency));
        if p.merchant == merchant && p.currency == currency && p.status.Requested? {
          total := total + p.amount;
        }
        k := k + 1;
      }
      assert store.payouts[..k] == store.payouts;
    }

    method BeginIn(merchant: string, currency: Currency, amount: int) returns (p: Option<nat>)
      modifies store
      ensures store.State() == Next(old(store.State()), PayoutBegin(merchant, currency, amount))
      ensures p.Some? <==>
                0 < amount <= Holding(old(store.State()), MerchantAvailable, merchant, currency)
                              - Sum(old(store.payouts), AskedFor(merchant, currency))
      ensures p.None? ==> store.State() == old(store.State())
      ensures p.Some? ==>
                && p.value == |old(store.payouts)|
                && store.payouts == old(store.payouts) + [Payout(merchant, currency, amount, PayoutStatus.Requested, false)]
    {
      var committed := Committed(merchant, currency);
      var fundable := Bal(store.log, Acct(MerchantAvailable, merchant, currency)) - committed;
      if amount <= 0 || amount > fundable {
        return None;
      }
      p := Some(|store.payouts|);
      store.payouts := store.payouts + [Payout(merchant, currency, amount, PayoutStatus.Requested, false)];
    }

    method Post(p: nat, op: Operation, to: PayoutStatus) returns (answer: Answer)
      requires p < |store.payouts|
      modifies store
      ensures answer == Ask(old(store.log), PayoutMove(old(store.State()), p, op))
      ensures store.State() == PostPayout(old(store.State()), p, op, to)
    {
      var row := store.payouts[p];
      var m := Move(ResourceKey(op, p), Legs(op), row.merchant, row.currency, row.amount);
      answer := Ask(store.log, m);
      if answer == Posted && CanTransition(PayoutTransitions, row.status, to) {
        store.log := store.log + [m];
        store.payouts := store.payouts[p := row.(status := to, held := op.EmitPayout?)];
      }
    }

    method Mark(p: nat, to: PayoutStatus)
      requires p < |store.payouts|
      modifies store
      ensures store.State() == MarkPayout(old(store.State()), p, to)
    {
      if CanTransition(PayoutTransitions, store.payouts[p].status, to) {
        store.payouts := store.payouts[p := store.payouts[p].(status := to)];
      }
    }

    method Report(p: nat, reply: ProviderReply)
      requires p < |store.payouts|
      modifies store
      ensures store.State() == ReportPayout(old(store.State()), p, ReplyOf(reply))
    {
      match reply {
        case Approved => var answer := Post(p, SettlePayout, PayoutStatus.Paid);
        case Declined => var answer := Post(p, FailPayout, PayoutStatus.Failed);
        case NotSent => var answer := Post(p, FailPayout, PayoutStatus.Failed);
        case Pending => Mark(p, PayoutStatus.Indeterminate);
        case Thrown => Mark(p, PayoutStatus.Indeterminate);
      }
    }

    /** Phase two: emit, call the bank, record what it says. */
    method Execute(p: nat, reply: ProviderReply)
      modifies store
      ensures store.State() ==
              if p < |old(store.payouts)| then Finish(old(store.State()), ExecutePayout(old(store.State()), p, ReplyOf(reply)), p)
              else old(store.State())
      ensures PayoutTable(old(store.State()), store.State(), p, reply)
      ensures Reachable(old(store.State())) ==>
                PayoutExecuted(old(store.State()), store.State(), p, reply) && Reachable(store.State())
    {
      if p >= |store.payouts| {
        return;
      }
      FinishIsExecuted(store.State(), p, reply);
      Perform(p, reply);
      store.tasks := store.tasks + [Ended(p)];
    }

    method Perform(p: nat, reply: ProviderReply)
      requires p < |store.payouts|
      modifies store
      ensures store.State() == ExecutePayout(old(store.State()), p, ReplyOf(reply))
    {
      var status := store.payouts[p].status;
      if status.Requested? {
        var answer := Post(p, EmitPayout, PayoutStatus.InTransit);
        if answer == Conflict {
          return;
        }
        if answer == Insufficient {
          Mark(p, PayoutStatus.Failed);
          return;
        }
        Report(p, reply);
      } else if status.InTransit? {
        Report(p, reply);
      }
    }

    /** Resolution by a verified source. */
    method Resolve(p: nat, paid: bool) returns (answer: Resolution)
      modifies store
      ensures answer == Ignored <==> p >= |old(store.payouts)|
      ensures answer == OutOfOrder <==> p < |old(store.payouts)| && Terminal(PayoutTransitions, old(store.payouts)[p].status)
      ensures answer == RetryLater <==> p < |old(store.payouts)| && old(store.payouts)[p].status.Requested?
      ensures answer != Applied ==> store.State() == old(store.State())
      ensures answer == Applied ==>
                store.State() == Finish(old(store.State()), ReportPayout(old(store.State()), p, if paid then Accepted else Refused), p)
      ensures answer == Applied && Reachable(old(store.State())) ==>
                PayoutResolved(old(store.State()), store.State(), p, paid) && Reachable(store.State())
    {
      if p >= |store.payouts| {
        return Ignored;
      }
      var status := store.payouts[p].status;
      if status.Paid? || status.Failed? {
        return OutOfOrder;
      }
      if !status.InTransit? && !status.Indeterminate? {
        return RetryLater;
      }
      if Reachable(store.State()) {
        PayoutIsResolved(store.State(), p, paid);
      }
      Report(p, if paid then Approved else Declined);
      store.tasks := store.tasks + [Ended(p)];
      return Applied;
    }
  }

  // --------------------------------------------------------------- disputes

  /** The row and its hold are there together, within what was available, or nothing has changed. */
  ghost predicate DisputeFiled(w: World, t: World, d: Option<nat>, merchant: string, currency: Currency, amount: int) {
    if d.None? then t == w
    else
      && d.value == |w.disputes| && 0 < amount <= Holding(w, MerchantAvailable, merchant, currency)
      && t == w.(log := w.log + [Hold(w, merchant, currency, amount)],
                 disputes := w.disputes + [Dispute(merchant, currency, amount, DisputeStatus.Open)])
  }

  lemma {:induction false} DisputeIsFiled(w: World, merchant: string, currency: Currency, amount: int)
    ensures var posts := amount > 0 && Ask(w.log, Hold(w, merchant, currency, amount)) == Posted;
            && (posts ==> amount <= Holding(w, MerchantAvailable, merchant, currency))
            && Next(w, DisputeOpen(merchant, currency, amount)) ==
               (if posts then w.(log := w.log + [Hold(w, merchant, currency, amount)],
                                 disputes := w.disputes + [Dispute(merchant, currency, amount, DisputeStatus.Open)])
                else w)
            && (Reachable(w) ==> (posts <==> 0 < amount <= Holding(w, MerchantAvailable, merchant, currency)))
  {
    FilingIs(w, merchant, currency, amount);
    if Ask(w.log, Hold(w, merchant, currency, amount)) == Posted {
      HoldNeedsFunds(w, merchant, currency, amount);
    }
    if Reachable(w) {
      ReachableAgrees(w);
      HoldIsAsked(w, merchant, currency, amount);
    }
  }

  /** What a resolution leaves of a dispute that is not closed: won, or lost if clearing covers it. */
  ghost predicate DisputeResolved(w: World, t: World, d: nat, won: bool) {
    && d < |w.disputes|
    && var row := w.disputes[d];
    t == if won then WithDispute(w, d, Won).(log := w.log + [DisputeMove(d, row, WinDispute)])
         else if row.amount <= Holding(w, ProviderClearing, row.merchant, row.currency)
         then WithDispute(w, d, Lost).(log := w.log + [DisputeMove(d, row, LoseDispute)])
         else w
  }

  class DisputeService {
    const store: Store

    constructor (store: Store)
      ensures this.store == store
    {
      this.store := store;
    }

    /** The row and its hold appear together or not at all. */
    method Open(merchant: string, currency: Currency, amount: int) returns (d: Option<nat>)
      modifies store
      ensures store.State() == Next(old(store.State()), DisputeOpen(merchant, currency, amount))
      ensures DisputeFiled(old(store.State()), store.State(), d, merchant, currency, amount)
      ensures Reachable(old(store.State())) ==>
                (d.Some? <==> 0 < amount <= Holding(old(store.State()), MerchantAvailable, merchant, currency))
    {
      DisputeIsFiled(store.State(), merchant, currency, amount);
      var m := Move(ResourceKey(Operation.OpenDispute, |store.disputes|), Legs(Operation.OpenDispute), merchant, currency, amount);
      assert m == Hold(store.State(), merchant, currency, amount);
      if amount <= 0 || amount > Bal(store.log, Acct(MerchantAvailable, merchant, currency)) {
        return None;
      }
      if Ask(store.log, m) != Posted {
        return None;
      }
      d := Some(|store.disputes|);
      store.log := store.log + [m];
      store.disputes := store.disputes + [Dispute(merchant, currency, amount, DisputeStatus.Open)];
    }

    method SubmitEvidence(d: nat) returns (accepted: bool)
      modifies store
      ensures store.State() == Next(old(store.State()), DisputeReview(d))
      ensures accepted <==>
                d < |old(store.disputes)| && (old(store.disputes)[d].status.Open? || old(store.disputes)[d].status.UnderReview?)
      ensures store.State() == if accepted then WithDispute(old(store.State()), d, UnderReview) else old(store.State())
    {
      if d >= |store.disputes| {
        return false;
      }
      var status := store.disputes[d].status;
      if status.UnderReview? {
        return true;
      }
      if !status.Open? {
        return false;
      }
      store.disputes := store.disputes[d := store.disputes[d].(status := UnderReview)];
      return true;
    }

    method Resolve(d: nat, won: bool) returns (answer: Resolution)
      modifies store
      ensures answer == Ignored <==> d >= |old(store.disputes)|
      ensures answer == OutOfOrder <==> d < |old(store.disputes)| && Terminal(DisputeTransitions, old(store.disputes)[d].status)
      ensures answer != RetryLater
      ensures answer != Applied ==> store.State() == old(store.State())
      ensures answer == Applied ==>
                store.State() == Next(old(store.State()), if won then DisputeWin(d) else DisputeLose(d))
      ensures answer == Applied && Reachable(old(store.State())) ==>
                DisputeResolved(old(store.State()), store.State(), d, won)
    {
      if Reachable(store.State()) {
        WinTakesEffectIff(store.State(), d);
        LossTakesEffectIff(store.State(), d);
      }
      if d >= |store.disputes| {
        return Ignored;
      }
      var row := store.disputes[d];
      if row.status.Won? || row.status.Lost? {
        return OutOfOrder;
      }
      EngineBalances.WinIsPosting(store.State(), d);
      EngineBalances.LoseIsPosting(store.State(), d);
      if won {
        Post(d, WinDispute, Won);
      } else {
        Post(d, LoseDispute, Lost);
      }
      return Applied;
    }

    method Post(d: nat, op: Operation, to: DisputeStatus)
      requires d < |store.disputes|
      modifies store
      ensures store.State() == PostDispute(old(store.State()), d, op, to)
    {
      var row := store.disputes[d];
      var m := Move(ResourceKey(op, d), Legs(op), row.merchant, row.currency, row.amount);
      if Ask(store.log, m) == Posted && CanTransition(DisputeTransitions, row.status, to) {
        store.log := store.log + [m];
        store.disputes := store.disputes[d := row.(status := to)];
      }
    }
  }

  // ----------------------------------------------------------- confirmations

  function ChargeOutcome(a: nat, reply: ProviderReply): Step {
    match reply
    case Approved => AttemptApprove(a)
    case Declined => AttemptDecline(a)
    case NotSent => AttemptDecline(a)
    case Pending => AttemptSubmit(a)
    case Thrown => AttemptDoubt(a)
  }

  /** Attempt a has been captured: posted, succeeded, and its intent paid in full. */
  ghost predicate CapturedWhole(t: World, a: nat) {
    && a < |t.attempts| && t.attempts[a].status.Succeeded? && Has(t.log, AttemptKey(a))
    && var i := t.attempts[a].intent;
    i < |t.intents| && t.intents[i].status.Succeeded? && t.intents[i].captured == t.intents[i].amount
  }

  /** Attempt a has failed and its intent with it. */
  ghost predicate FailedWhole(t: World, a: nat) {
    && a < |t.attempts| && t.attempts[a].status.Failed?
    && var i := t.attempts[a].intent;
    i < |t.intents| && t.intents[i].status.Failed?
  }

  /**
   * What the outcome of a charge leaves: a pending attempt that was approved is captured
   * whole unless its fee leaves nothing, one that was declined fails with its intent, and
   * an attempt that has its outcome keeps it.
   */
  ghost predicate ChargeRecorded(w: World, t: World, a: nat, approved: bool) {
    && a < |w.attempts| && w.attempts[a].intent < |w.intents|
    && t == if !EngineLaws.Pending(w.attempts[a].status) then w
            else if !approved then EngineLaws.Declined(w, a)
            else if FeeOn(w.attempts[a].amount, w.bps) < w.attempts[a].amount then Captured(w, a)
            else w
  }

  /** What an execution leaves: the outcome of the charge, or that it is submitted, or in doubt. */
  ghost predicate ChargeExecuted(w: World, t: World, a: nat, reply: ProviderReply) {
    if a >= |w.attempts| || !w.attempts[a].status.Submitting? then t == w
    else
      match reply
      case Approved => ChargeRecorded(w, t, a, true)
      case Declined => ChargeRecorded(w, t, a, false)
      case NotSent => ChargeRecorded(w, t, a, false)
      case Pending => t == WithAttempt(w, a, AttemptStatus.Submitted)
      case Thrown => t == WithAttempt(w, a, AttemptStatus.Indeterminate)
  }

  class ConfirmationService {
    const store: Store

    constructor (store: Store)
      ensures this.store == store
    {
      this.store := store;
    }

    /** Walks the intent to processing, one legal transition at a time, and adds the attempt. */
    method BeginIn(i: nat) returns (a: Option<nat>)
      modifies store
      ensures store.State() == Next(old(store.State()), IntentConfirm(i))
      ensures a.Some? ==> a.value == |old(store.attempts)| && |store.attempts| == a.value + 1
      ensures a.None? ==> store.State() == old(store.State())
      ensures a.Some? <==>
                && i < |old(store.intents)|
                && var s := old(store.intents)[i].status; s.Created? || s.RequiresPaymentMethod? || s.RequiresConfirmation?
      ensures a.Some? ==>
                && store.intents == old(store.intents)[i := old(store.intents)[i].(status := IntentStatus.Processing)]
                && store.attempts[a.value].intent == i && store.attempts[a.value].status.Submitting?
                && store.attempts[a.value].amount == store.intents[i].amount
    {
      ConfirmTakesEffectIff(store.State(), i);
      if i >= |store.intents| {
        return None;
      }
      var intent := store.intents[i];
      var path := ConfirmPath(intent.status);
      if path == [] {
        return None;
      }
      var status := intent.status;
      var k := 0;
      while k < |path|
        invariant 0 <= k <= |path|
        invariant Walk(intent.status, path) == Walk(status, path[k..])
      {
        assert path[k..][0] == path[k] && path[k..][1..] == path[k + 1..];
        if !CanTransition(IntentTransitions, status, path[k]) {
          return None;
        }
        status := path[k];
        k := k + 1;
      }
      a := Some(|store.attempts|);
      store.intents := store.intents[i := intent.(status := status)];
      store.attempts := store.attempts
        + [Attempt(i, intent.merchant, intent.currency, intent.amount, AttemptStatus.Submitting)];
    }

    /** recordApproved: capture, attempt, intent and captured amount in one transaction. */
    method RecordApproved(a: nat, reference: string)
      requires a < |store.attempts|
      modifies store
      ensures store.State() == Next(old(store.State()), AttemptApprove(a))
      ensures if store.State() == old(store.State()) then store.references == old(store.references)
              else CapturedWhole(store.State(), a) && store.references == old(store.references)[a := reference]
      ensures Reachable(old(store.State())) ==> ChargeRecorded(old(store.State()), store.State(), a, true)
    {
      if Reachable(store.State()) {
        ApprovalTakesEffectIff(store.State(), a);
      }
      var row := store.attempts[a];
      var fee := FeeOn(row.amount, store.bps);
      var m := Move(AttemptKey(a), Charge(fee), row.merchant, row.currency, row.amount);
      if row.amount - fee <= 0 || Ask(store.log, m) != Posted || row.intent >= |store.intents| {
        return;
      }
      var intent := store.intents[row.intent];
      if || !CanTransition(AttemptTransitions, row.status, AttemptStatus.Succeeded)
         || !CanTransition(IntentTransitions, intent.status, IntentStatus.Succeeded) {
        return;
      }
      store.log, store.attempts, store.intents, store.references :=
        store.log + [m],
        store.attempts[a := row.(status := AttemptStatus.Succeeded)],
        store.intents[row.intent := intent.(status := IntentStatus.Succeeded, captured := intent.amount)],
        store.references[a := reference];
      HasPush(old(store.log), m, m.key);
    }

    method RecordDeclined(a: nat, reference: string)
      requires a < |store.attempts|
      modifies store
      ensures store.State() == Next(old(store.State()), AttemptDecline(a))
      ensures if store.State() == old(store.State()) then store.references == old(store.references)
              else FailedWhole(store.State(), a) && store.log == old(store.log)
                   && store.references == old(store.references)[a := reference]
      ensures Reachable(old(store.State())) ==> ChargeRecorded(old(store.State()), store.State(), a, false)
    {
      if Reachable(store.State()) {
        DeclineTakesEffectIff(store.State(), a);
      }
      var row := store.attempts[a];
      if row.intent >= |store.intents| {
        return;
      }
      var intent := store.intents[row.intent];
      if || !CanTransition(AttemptTransitions, row.status, AttemptStatus.Failed)
         || !CanTransition(IntentTransitions, intent.status, IntentStatus.Failed) {
        return;
      }
      store.intents := store.intents[row.intent := intent.(status := IntentStatus.Failed)];
      store.attempts := store.attempts[a := row.(status := AttemptStatus.Failed)];
      store.references := store.references[a := reference];
    }

    /** `reference` is the provider's, where the reply carries one. */
    method Execute(a: nat, reply: ProviderReply, reference: string)
      modifies store
      ensures store.State() ==
              if a < |old(store.attempts)| && old(store.attempts)[a].status.Submitting?
              then Next(old(store.State()), ChargeOutcome(a, reply))
              else old(store.State())
      ensures store.State() != old(store.State()) ==>
                match reply
                case Approved => CapturedWhole(store.State(), a)
                case Declined => FailedWhole(store.State(), a)
                case NotSent => FailedWhole(store.State(), a)
                case Pending => store.attempts[a].status.Submitted? && store.log == old(store.log)
                case Thrown => store.attempts[a].status.Indeterminate? && store.log == old(store.log)
      ensures Reachable(old(store.State())) ==> ChargeExecuted(old(store.State()), store.State(), a, reply)
    {
      if a >= |store.attempts| || !store.attempts[a].status.Submitting? {
        return;
      }
      match reply {
        case Approved => RecordApproved(a, reference);
        case Declined => RecordDeclined(a, reference);
        case NotSent => RecordDeclined(a, "circuit_open");
        case Pending =>
          store.attempts := store.attempts[a := store.attempts[a].(status := AttemptStatus.Submitted)];
          store.references := store.references[a := reference];
        case Thrown =>
          store.attempts := store.attempts[a := store.attempts[a].(status := AttemptStatus.Indeterminate)];
      }
    }

    /** Resolution by a verified source, which must name the reference that the attempt has, if it has one. */
    method Resolve(a: nat, reference: string, succeeded: bool) returns (answer: Resolution)
      modifies store
      ensures answer == Ignored <==>
                a >= |old(store.attempts)| || (a in old(store.references) && old(store.references)[a] != reference)
      ensures answer != Applied ==> store.State() == old(store.State())
      ensures answer == Applied ==>
                store.State() == Next(old(store.State()), if succeeded then AttemptApprove(a) else AttemptDecline(a))
      ensures answer == OutOfOrder <==> answer != Ignored && Terminal(AttemptTransitions, old(store.attempts)[a].status)
      ensures answer == Applied <==>
                answer != Ignored
                && (old(store.attempts)[a].status.Submitted? || old(store.attempts)[a].status.Indeterminate?)
      ensures answer == Applied && Reachable(old(store.State())) ==>
                ChargeRecorded(old(store.State()), store.State(), a, succeeded)
    {
      if a >= |store.attempts| {
        return Ignored;
      }
      if a in store.references && store.references[a] != reference {
        return Ignored;
      }
      var status := store.attempts[a].status;
      if status.Succeeded? || status.Failed? || status.Expired? {
        return OutOfOrder;
      }
      if !status.Submitted? && !status.Indeterminate? {
        return RetryLater;
      }
      if succeeded {
        RecordApproved(a, reference);
      } else {
        RecordDeclined(a, reference);
      }
      return Applied;
    }
  }

  // ------------------------------------------------ calls are runs of steps

  function RefundScript(w: World, r: nat, reply: ProviderReply): seq<Step> {
    if r >= |w.refunds| then []
    else if w.refunds[r].status.Processing? then [RefundOutcome(r, reply)]
    else if !w.refunds[r].status.Created? then []
    else
      match Ask(w.log, RefundMove(w, r, RequestRefund))
      case Posted => [RefundReserve(r)] + [RefundOutcome(r, reply)]
      case Replayed => [RefundOutcome(r, reply)]
      case Insufficient => [RefundDrop(r)]
      case Conflict => []
  }

  /** An execution of a refund is a run of at most two steps. */
  lemma {:induction false} RefundExecutionIsRun(w: World, r: nat, reply: ProviderReply)
    ensures ExecuteRefund(w, r, reply) == After(w, RefundScript(w, r, reply))
  {
    AfterOne(w, RefundOutcome(r, reply));
    AfterOne(w, RefundDrop(r));
    EngineBalances.DropIsMark(w, r);
    ReservedRun(w, r, reply);
    assert After(w, []) == w;
  }

  lemma {:induction false} ReservedRun(w: World, r: nat, reply: ProviderReply)
    ensures After(w, [RefundReserve(r)] + [RefundOutcome(r, reply)])
         == Next(PostRefund(w, r, RequestRefund, RefundStatus.Processing), RefundOutcome(r, reply))
  {
    AfterMore(w, [RefundReserve(r)], [RefundOutcome(r, reply)]);
    AfterOne(w, RefundReserve(r));
    EngineBalances.ReserveIsPosting(w, r);
    AfterOne(PostRefund(w, r, RequestRefund, RefundStatus.Processing), RefundOutcome(r, reply));
  }

  lemma {:induction false} FourAdvances(w: World, k: nat, reply: Reply)
    ensures After(w, Advances(k, reply))
         == Next(Next(Next(Next(w, TaskAdvance(k, reply)), TaskAdvance(k, reply)), TaskAdvance(k, reply)), TaskAdvance(k, reply))
  {
    var s := TaskAdvance(k, reply);
    assert Advances(k, reply) == [s] + [s] + [s] + [s];
    AfterMore(w, [s] + [s] + [s], [s]);
    AfterMore(w, [s] + [s], [s]);
    AfterMore(w, [s], [s]);
    AfterOne(w, s);
    AfterOne(Next(w, s), s);
    AfterOne(Next(Next(w, s), s), s);
    AfterOne(Next(Next(Next(w, s), s), s), s);
  }

  /** A world with one more task, at its last place. */
  function At(w: World, tasks: seq<Task>, t: Task): World {
    w.(tasks := tasks + [t])
  }

  lemma {:induction false} EndedStays(w: World, tasks: seq<Task>, p: nat, reply: Reply)
    ensures Next(At(w, tasks, Ended(p)), TaskAdvance(|tasks|, reply)) == At(w, tasks, Ended(p))
  {
  }

  lemma {:induction false} CallingReports(w: World, tasks: seq<Task>, p: nat, reply: Reply)
    requires p < |w.payouts|
    ensures Next(At(w, tasks, Calling(p)), TaskAdvance(|tasks|, reply)) == At(w, tasks, Reporting(p, reply))
  {
    assert (tasks + [Calling(p)])[|tasks| := Reporting(p, reply)] == tasks + [Reporting(p, reply)];
  }

  lemma {:induction false} ReportingEnds(w: World, tasks: seq<Task>, p: nat, reply: Reply, later: Reply)
    requires p < |w.payouts|
    ensures Next(At(w, tasks, Reporting(p, reply)), TaskAdvance(|tasks|, later))
         == At(ReportPayout(w, p, reply), tasks, Ended(p))
  {
    assert (tasks + [Reporting(p, reply)])[|tasks| := Ended(p)] == tasks + [Ended(p)];
  }

  lemma {:induction false} ReadingMoves(w: World, tasks: seq<Task>, p: nat, reply: Reply)
    requires p < |w.payouts|
    ensures Next(At(w, tasks, Reading(p)), TaskAdvance(|tasks|, reply))
         == At(w, tasks, if w.payouts[p].status.Requested? then Emitting(p)
                         else if w.payouts[p].status.InTransit? then Calling(p)
                         else Ended(p))
  {
    assert forall t: Task :: (tasks + [Reading(p)])[|tasks| := t] == tasks + [t];
  }

  lemma {:induction false} EmittingMoves(w: World, tasks: seq<Task>, p: nat, reply: Reply)
    requires p < |w.payouts| && w.payouts[p].status.Requested?
    ensures var t := Next(At(w, tasks, Emitting(p)), TaskAdvance(|tasks|, reply));
            match Ask(w.log, PayoutMove(w, p, EmitPayout))
            case Posted => t == At(PostPayout(w, p, EmitPayout, PayoutStatus.InTransit), tasks, Calling(p))
            case Replayed => t == At(w, tasks, Calling(p))
            case Insufficient => t == At(w, tasks, Broke(p))
            case Conflict => t == At(w, tasks, Ended(p))
  {
    assert forall t: Task :: (tasks + [Emitting(p)])[|tasks| := t] == tasks + [t];
  }

  lemma {:induction false} BrokeEnds(w: World, tasks: seq<Task>, p: nat, reply: Reply)
    requires p < |w.payouts|
    ensures Next(At(w, tasks, Broke(p)), TaskAdvance(|tasks|, reply))
         == At(MarkPayout(w, p, PayoutStatus.Failed), tasks, Ended(p))
  {
    assert (tasks + [Broke(p)])[|tasks| := Ended(p)] == tasks + [Ended(p)];
  }

  /** Two advances take a task from the bank's door to its end. */
  lemma {:induction false} CallingEnds(w: World, tasks: seq<Task>, p: nat, reply: Reply)
    requires p < |w.payouts|
    ensures Next(Next(At(w, tasks, Calling(p)), TaskAdvance(|tasks|, reply)), TaskAdvance(|tasks|, reply))
         == At(ReportPayout(w, p, reply), tasks, Ended(p))
  {
    CallingReports(w, tasks, p, reply);
    ReportingEnds(w, tasks, p, reply, reply);
  }

  lemma {:induction false} RequestedEnds(w: World, tasks: seq<Task>, p: nat, reply: Reply)
    requires p < |w.payouts| && w.payouts[p].status.Requested?
    ensures var s := TaskAdvance(|tasks|, reply);
            Next(Next(Next(At(w, tasks, Emitting(p)), s), s), s) == At(ExecutePayout(w, p, reply), tasks, Ended(p))
  {
    EmittingMoves(w, tasks, p, reply);
    var emitted := PostPayout(w, p, EmitPayout, PayoutStatus.InTransit);
    match Ask(w.log, PayoutMove(w, p, EmitPayout))
    case Posted => CallingEnds(emitted, tasks, p, reply);
    case Replayed => CallingEnds(w, tasks, p, reply);
    case Insufficient =>
      BrokeEnds(w, tasks, p, reply);
      EndedStays(MarkPayout(w, p, PayoutStatus.Failed), tasks, p, reply);
    case Conflict => EndedStays(w, tasks, p, reply);
  }

  /**
   * An execution of a payout that exists is a run: it starts, and its process advances to
   * its end.
   */
  lemma {:induction false} PayoutExecutionIsRun(w: World, p: nat, reply: Reply)
    requires p < |w.payouts|
    ensures After(w, [PayoutStart(p)] + Advances(|w.tasks|, reply)) == Finish(w, ExecutePayout(w, p, reply), p)
  {
    var k := |w.tasks|;
    var s, status := TaskAdvance(k, reply), w.payouts[p].status;
    var w1 := Next(w, PayoutStart(p));
    assert w1 == At(w, w.tasks, Reading(p));
    AfterOne(w, PayoutStart(p));
    AfterMore(w, [PayoutStart(p)], Advances(k, reply));
    FourAdvances(w1, k, reply);
    ReadingMoves(w, w.tasks, p, reply);
    if status.Requested? {
      RequestedEnds(w, w.tasks, p, reply);
    } else if status.InTransit? {
      CallingEnds(w, w.tasks, p, reply);
      EndedStays(ReportPayout(w, p, reply), w.tasks, p, reply);
    } else {
      EndedStays(w, w.tasks, p, reply);
    }
  }

  lemma {:induction false} HearingMoves(w: World, tasks: seq<Task>, p: nat, paid: bool, reply: Reply)
    requires p < |w.payouts| && (w.payouts[p].status.InTransit? || w.payouts[p].status.Indeterminate?)
    ensures Next(At(w, tasks, HookReading(p, paid)), TaskAdvance(|tasks|, reply)) == At(w, tasks, HookActing(p, paid))
  {
    assert (tasks + [HookReading(p, paid)])[|tasks| := HookActing(p, paid)] == tasks + [HookActing(p, paid)];
  }

  lemma {:induction false} ActingEnds(w: World, tasks: seq<Task>, p: nat, paid: bool, reply: Reply)
    requires p < |w.payouts|
    ensures Next(At(w, tasks, HookActing(p, paid)), TaskAdvance(|tasks|, reply))
         == At(ReportPayout(w, p, if paid then Accepted else Refused), tasks, Ended(p))
  {
    assert (tasks + [HookActing(p, paid)])[|tasks| := Ended(p)] == tasks + [Ended(p)];
  }

  /** So is a webhook that finds its payout on its way. */
  lemma {:induction false} PayoutResolutionIsRun(w: World, p: nat, paid: bool, reply: Reply)
    requires p < |w.payouts| && (w.payouts[p].status.InTransit? || w.payouts[p].status.Indeterminate?)
    ensures After(w, [PayoutHear(p, paid)] + [TaskAdvance(|w.tasks|, reply)] + [TaskAdvance(|w.tasks|, reply)])
         == Finish(w, ReportPayout(w, p, if paid then Accepted else Refused), p)
  {
    var s, w1 := TaskAdvance(|w.tasks|, reply), Next(w, PayoutHear(p, paid));
    assert w1 == At(w, w.tasks, HookReading(p, paid));
    AfterMore(w, [PayoutHear(p, paid)] + [s], [s]);
    AfterMore(w, [PayoutHear(p, paid)], [s]);
    AfterOne(w, PayoutHear(p, paid));
    AfterOne(w1, s);
    HearingMoves(w, w.tasks, p, paid, reply);
    AfterOne(At(w, w.tasks, HookActing(p, paid)), s);
    ActingEnds(w, w.tasks, p, paid, reply);
  }
}
