/**
 * The payment lifecycles of one tenant as one transactional state machine
 * (packages/payments-core/src): confirmation.ts, refunds.ts, payouts.ts, disputes.ts and
 * service.ts over the postings of the ledger.
 *
 * A step is one committed transaction: it takes effect whole, or not at all when the
 * ledger refuses the posting, the transition map refuses the status, or a check of the
 * database refuses the row. Any process may take a step at any time, on whatever it read
 * before, so repetitions, late webhooks and crashes between steps are all runs. Only
 * payouts record what their processes have seen, because there it matters.
 */
module Engine {
  import opened Prelude
  import opened Money
  import opened Chart
  import opened Posting
  import opened Books
  import opened Fsm

  datatype Intent = Intent(
    merchant: string, currency: Currency, amount: int, status: IntentStatus, captured: int, refunded: int)

  /** `merchant` is that of the intent, which never changes. */
  datatype Attempt = Attempt(intent: nat, merchant: string, currency: Currency, amount: int, status: AttemptStatus)

  /** `merchant` is that of the intent, which never changes. */
  datatype Refund = Refund(intent: nat, merchant: string, currency: Currency, amount: int, status: RefundStatus)

  /** `held` records, for stating properties, that its money stands in payout.in_transit. */
  datatype Payout = Payout(merchant: string, currency: Currency, amount: int, status: PayoutStatus, held: bool)

  datatype Dispute = Dispute(merchant: string, currency: Currency, amount: int, status: DisputeStatus)

  /** What the bank answers; a throw and an asynchronous acceptance are both unknown. */
  datatype Reply = Accepted | Refused | NeverSent | Unclear

  /** A process working on a payout: an execution, or a webhook that was verified. */
  datatype Task =
    | Reading(payout: nat)
    | Emitting(payout: nat)
    | Broke(payout: nat)
    | Calling(payout: nat)
    | Reporting(payout: nat, reply: Reply)
    | HookReading(payout: nat, paid: bool)
    | HookActing(payout: nat, paid: bool)
    | Ended(payout: nat)
  {
    predicate Executes() {
      Reading? || Emitting? || Broke? || Calling? || Reporting?
    }
  }

  datatype World = World(
    bps: int,
    log: seq<Move>,
    intents: seq<Intent>,
    attempts: seq<Attempt>,
    refunds: seq<Refund>,
    payouts: seq<Payout>,
    disputes: seq<Dispute>,
    tasks: seq<Task>)

  datatype Step =
    | IntentCreate(merchant: string, currency: Currency, amount: int)
    | IntentCancel(i: nat)
    | IntentConfirm(i: nat)
    | AttemptSubmit(a: nat)
    | AttemptDoubt(a: nat)
    | AttemptApprove(a: nat)
    | AttemptDecline(a: nat)
    | RefundBegin(i: nat, asked: Option<int>)
    | RefundReserve(r: nat)
    | RefundDrop(r: nat)
    | RefundSettle(r: nat)
    | RefundReject(r: nat)
    | RefundDoubt(r: nat)
    | PayoutBegin(merchant: string, currency: Currency, amount: int)
    | PayoutStart(p: nat)
    | PayoutHear(p: nat, paid: bool)
    | PayoutSweep(p: nat)
    | TaskAdvance(k: nat, reply: Reply)
    | TaskCrash(k: nat)
    | DisputeOpen(merchant: string, currency: Currency, amount: int)
    | DisputeReview(d: nat)
    | DisputeWin(d: nat)
    | DisputeLose(d: nat)
    | DirectPost(name: string, op: Operation, merchant: string, currency: Currency, amount: int)

  // ------------------------------------------------- intents and attempts

  predicate Legal(w: World, i: nat, to: IntentStatus) {
    i < |w.intents| && CanTransition(IntentTransitions, w.intents[i].status, to)
  }

  function WithIntent(w: World, i: nat, to: IntentStatus): World
    requires i < |w.intents|
  {
    w.(intents := w.intents[i := w.intents[i].(status := to)])
  }

  function ConfirmPath(from: IntentStatus): seq<IntentStatus> {
    match from
    case Created => [IntentStatus.RequiresPaymentMethod, IntentStatus.RequiresConfirmation, IntentStatus.Processing]
    case RequiresPaymentMethod => [IntentStatus.RequiresConfirmation, IntentStatus.Processing]
    case RequiresConfirmation => [IntentStatus.Processing]
    case _ => []
  }

  /** The status after a series of transitions, if all of them are legal. */
  function Walk(from: IntentStatus, path: seq<IntentStatus>): Option<IntentStatus>
    decreases |path|
  {
    if path == [] then Some(from)
    else if !CanTransition(IntentTransitions, from, path[0]) then None
    else Walk(path[0], path[1..])
  }

  /** Phase one of a confirmation: the intent is processing and an attempt is submitting. */
  function Confirm(w: World, i: nat): World {
    if i >= |w.intents| then w
    else
      var intent := w.intents[i];
      var path := ConfirmPath(intent.status);
      var reached := Walk(intent.status, path);
      if path == [] || reached.None? then w
      else
        WithIntent(w, i, reached.value).(
          attempts := w.attempts
            + [Attempt(i, intent.merchant, intent.currency, intent.amount, AttemptStatus.Submitting)])
  }

  /** UPDATE … WHERE status = 'submitting': a no-op in any other status. */
  function AttemptMark(w: World, a: nat, to: AttemptStatus): World {
    if a >= |w.attempts| || !w.attempts[a].status.Submitting? then w
    else w.(attempts := w.attempts[a := w.attempts[a].(status := to)])
  }

  function CaptureMove(w: World, a: nat): Move
    requires a < |w.attempts|
  {
    var row := w.attempts[a];
    Move(AttemptKey(a), Charge(FeeOn(row.amount, w.bps)), row.merchant, row.currency, row.amount)
  }

  /** recordApproved: the capture, the attempt, the intent and amount_captured together. */
  function Approve(w: World, a: nat): World {
    if a >= |w.attempts| then w
    else
      var row := w.attempts[a];
      if || row.amount - FeeOn(row.amount, w.bps) <= 0
         || Ask(w.log, CaptureMove(w, a)) != Posted
         || !CanTransition(AttemptTransitions, row.status, AttemptStatus.Succeeded)
         || !Legal(w, row.intent, IntentStatus.Succeeded) then w
      else
        var intent := w.intents[row.intent];
        w.(log := w.log + [CaptureMove(w, a)],
           attempts := w.attempts[a := row.(status := AttemptStatus.Succeeded)],
           intents := w.intents[row.intent := intent.(status := IntentStatus.Succeeded, captured := intent.amount)])
  }

  function Decline(w: World, a: nat): World {
    if a >= |w.attempts| then w
    else
      var row := w.attempts[a];
      if || !CanTransition(AttemptTransitions, row.status, AttemptStatus.Failed)
         || !Legal(w, row.intent, IntentStatus.Failed) then w
      else
        WithIntent(w, row.intent, IntentStatus.Failed).(
          attempts := w.attempts[a := row.(status := AttemptStatus.Failed)])
  }

  // --------------------------------------------------------------- refunds

  function Reserving(i: nat): Refund -> int {
    (r: Refund) => if r.intent == i && (r.status.Created? || r.status.Processing?) then r.amount else 0
  }

  /** What beginIn takes as still refundable: it does not count indeterminate refunds. */
  function Remaining(w: World, i: nat): int
    requires i < |w.intents|
  {
    w.intents[i].captured - w.intents[i].refunded - Sum(w.refunds, Reserving(i))
  }

  function BeginRefund(w: World, i: nat, asked: Option<int>): World {
    if i >= |w.intents| || !(w.intents[i].status.Succeeded? || w.intents[i].status.PartiallyRefunded?) then w
    else
      var remaining := Remaining(w, i);
      var requested := if asked.Some? then asked.value else if remaining > 0 then remaining else 0;
      if requested <= 0 || requested > remaining then w
      else
        w.(refunds := w.refunds
             + [Refund(i, w.intents[i].merchant, w.intents[i].currency, requested, RefundStatus.Created)])
  }

  function RefundMove(w: World, r: nat, op: Operation): Move
    requires r < |w.refunds|
  {
    Move(ResourceKey(op, r), Legs(op), w.refunds[r].merchant, w.refunds[r].currency, w.refunds[r].amount)
  }

  function MarkRefund(w: World, r: nat, to: RefundStatus): World {
    if r >= |w.refunds| || !CanTransition(RefundTransitions, w.refunds[r].status, to) then w
    else w.(refunds := w.refunds[r := w.refunds[r].(status := to)])
  }

  predicate RefundPosts(w: World, r: nat, op: Operation, to: RefundStatus) {
    && r < |w.refunds|
    && Ask(w.log, RefundMove(w, r, op)) == Posted
    && CanTransition(RefundTransitions, w.refunds[r].status, to)
  }

  /** A posting whose onPosted hook moves the refund to a status. */
  function PostRefund(w: World, r: nat, op: Operation, to: RefundStatus): World {
    if !RefundPosts(w, r, op, to) then w
    else MarkRefund(w, r, to).(log := w.log + [RefundMove(w, r, op)])
  }

  /** recordSucceeded: the hook also adds to amount_refunded, which the database bounds. */
  function CloseRefund(w: World, r: nat): World {
    if !RefundPosts(w, r, Operation.SettleRefund, RefundStatus.Succeeded) then w
    else
      var i := w.refunds[r].intent;
      if i >= |w.intents| then w
      else
        var intent := w.intents[i];
        var refunded := intent.refunded + w.refunds[r].amount;
        var target := if refunded == intent.captured then IntentStatus.Refunded else IntentStatus.PartiallyRefunded;
        if refunded < 0 || refunded > intent.captured || !Legal(w, i, target) then w
        else
          PostRefund(w, r, Operation.SettleRefund, RefundStatus.Succeeded).(
            intents := w.intents[i := intent.(status := target, refunded := refunded)])
  }

  // --------------------------------------------------------------- payouts

  function AskedFor(merchant: string, currency: Currency): Payout -> int {
    (p: Payout) => if p.merchant == merchant && p.currency == currency && p.status.Requested? then p.amount else 0
  }

  function BeginPayout(w: World, merchant: string, currency: Currency, amount: int): World {
    var fundable := Bal(w.log, Acct(MerchantAvailable, merchant, currency)) - Sum(w.payouts, AskedFor(merchant, currency));
    if amount <= 0 || amount > fundable then w
    else w.(payouts := w.payouts + [Payout(merchant, currency, amount, PayoutStatus.Requested, false)])
  }

  function PayoutMove(w: World, p: nat, op: Operation): Move
    requires p < |w.payouts|
  {
    Move(ResourceKey(op, p), Legs(op), w.payouts[p].merchant, w.payouts[p].currency, w.payouts[p].amount)
  }

  function MarkPayout(w: World, p: nat, to: PayoutStatus): World {
    if p >= |w.payouts| || !CanTransition(PayoutTransitions, w.payouts[p].status, to) then w
    else w.(payouts := w.payouts[p := w.payouts[p].(status := to)])
  }

  predicate PayoutPosts(w: World, p: nat, op: Operation, to: PayoutStatus) {
    && p < |w.payouts|
    && Ask(w.log, PayoutMove(w, p, op)) == Posted
    && CanTransition(PayoutTransitions, w.payouts[p].status, to)
  }

  /** A posting whose onPosted hook moves the payout to a status. */
  function PostPayout(w: World, p: nat, op: Operation, to: PayoutStatus): World {
    if !PayoutPosts(w, p, op, to) then w
    else
      w.(log := w.log + [PayoutMove(w, p, op)],
         payouts := w.payouts[p := w.payouts[p].(status := to, held := op.EmitPayout?)])
  }

  function WithTask(w: World, k: nat, t: Task): World
    requires k < |w.tasks|
  {
    w.(tasks := w.tasks[k := t])
  }

  function StatusOf(w: World, p: nat): PayoutStatus {
    if p < |w.payouts| then w.payouts[p].status else PayoutStatus.Failed
  }

  /** The next transaction of a process, or its call to the bank. */
  function AdvanceTask(w: World, k: nat, reply: Reply): World
    requires k < |w.tasks|
  {
    match w.tasks[k]
    case Reading(p) =>
      if StatusOf(w, p).Requested? then WithTask(w, k, Emitting(p))
      else if StatusOf(w, p).InTransit? then WithTask(w, k, Calling(p))
      else WithTask(w, k, Ended(p))
    case Emitting(p) =>
      if p >= |w.payouts| then w
      else
        (match Ask(w.log, PayoutMove(w, p, EmitPayout))
         case Posted =>
           if CanTransition(PayoutTransitions, w.payouts[p].status, PayoutStatus.InTransit)
           then WithTask(PostPayout(w, p, EmitPayout, PayoutStatus.InTransit), k, Calling(p))
           else WithTask(w, k, Ended(p))
         case Replayed => WithTask(w, k, Calling(p))
         case Insufficient => WithTask(w, k, Broke(p))
         case Conflict => WithTask(w, k, Ended(p)))
    case Broke(p) => WithTask(MarkPayout(w, p, PayoutStatus.Failed), k, Ended(p))
    case Calling(p) => WithTask(w, k, Reporting(p, reply))
    case Reporting(p, r) =>
      WithTask(
        (match r
         case Accepted => PostPayout(w, p, SettlePayout, PayoutStatus.Paid)
         case Refused => PostPayout(w, p, FailPayout, PayoutStatus.Failed)
         case NeverSent => PostPayout(w, p, FailPayout, PayoutStatus.Failed)
         case Unclear => MarkPayout(w, p, PayoutStatus.Indeterminate)), k, Ended(p))
    case HookReading(p, paid) =>
      if StatusOf(w, p).InTransit? || StatusOf(w, p).Indeterminate? then WithTask(w, k, HookActing(p, paid))
      else WithTask(w, k, Ended(p))
    case HookActing(p, paid) =>
      WithTask(
        if paid then PostPayout(w, p, SettlePayout, PayoutStatus.Paid)
        else PostPayout(w, p, FailPayout, PayoutStatus.Failed), k, Ended(p))
    case Ended(_) => w
  }

  // -------------------------------------------------------------- disputes

  function DisputeMove(d: nat, row: Dispute, op: Operation): Move {
    Move(ResourceKey(op, d), Legs(op), row.merchant, row.currency, row.amount)
  }

  /** The hold and the row are one transaction. */
  function FileDispute(w: World, merchant: string, currency: Currency, amount: int): World {
    var row := Dispute(merchant, currency, amount, Open);
    var m := DisputeMove(|w.disputes|, row, Operation.OpenDispute);
    if amount <= 0 || Ask(w.log, m) != Posted then w
    else w.(log := w.log + [m], disputes := w.disputes + [row])
  }

  function MarkDispute(w: World, d: nat, to: DisputeStatus): World {
    if d >= |w.disputes| || !CanTransition(DisputeTransitions, w.disputes[d].status, to) then w
    else w.(disputes := w.disputes[d := w.disputes[d].(status := to)])
  }

  predicate DisputePosts(w: World, d: nat, op: Operation, to: DisputeStatus) {
    && d < |w.disputes|
    && Ask(w.log, DisputeMove(d, w.disputes[d], op)) == Posted
    && CanTransition(DisputeTransitions, w.disputes[d].status, to)
  }

  function PostDispute(w: World, d: nat, op: Operation, to: DisputeStatus): World {
    if !DisputePosts(w, d, op, to) then w
    else MarkDispute(w, d, to).(log := w.log + [DisputeMove(d, w.disputes[d], op)])
  }

  // ------------------------------------------------------------------ runs

  /** The operations with no lifecycle of their own. */
  predicate IsDirect(op: Operation) {
    op.ReleaseSettlement? || op.HoldReserve? || op.ReleaseReserve? || op.ReceiveProviderSettlement?
  }

  function PostDirect(w: World, name: string, op: Operation, merchant: string, currency: Currency, amount: int): World {
    var m := Move(DirectKey(name), Legs(op), merchant, currency, amount);
    if !IsDirect(op) || !NameFits(name) || amount <= 0 || Ask(w.log, m) != Posted then w else w.(log := w.log + [m])
  }

  function Next(w: World, step: Step): World {
    match step
    case IntentCreate(merchant, currency, amount) =>
      if amount <= 0 then w
      else w.(intents := w.intents + [Intent(merchant, currency, amount, IntentStatus.Created, 0, 0)])
    case IntentCancel(i) => if Legal(w, i, IntentStatus.Canceled) then WithIntent(w, i, IntentStatus.Canceled) else w
    case IntentConfirm(i) => Confirm(w, i)
    case AttemptSubmit(a) => AttemptMark(w, a, AttemptStatus.Submitted)
    case AttemptDoubt(a) => AttemptMark(w, a, AttemptStatus.Indeterminate)
    case AttemptApprove(a) => Approve(w, a)
    case AttemptDecline(a) => Decline(w, a)
    case RefundBegin(i, asked) => BeginRefund(w, i, asked)
    case RefundReserve(r) => PostRefund(w, r, RequestRefund, RefundStatus.Processing)
    case RefundDrop(r) => MarkRefund(w, r, RefundStatus.Canceled)
    case RefundSettle(r) => CloseRefund(w, r)
    case RefundReject(r) => PostRefund(w, r, CancelRefund, RefundStatus.Failed)
    case RefundDoubt(r) => MarkRefund(w, r, RefundStatus.Indeterminate)
    case PayoutBegin(merchant, currency, amount) => BeginPayout(w, merchant, currency, amount)
    case PayoutStart(p) => if p < |w.payouts| then w.(tasks := w.tasks + [Reading(p)]) else w
    case PayoutHear(p, paid) => if p < |w.payouts| then w.(tasks := w.tasks + [HookReading(p, paid)]) else w
    case PayoutSweep(p) => if StatusOf(w, p).InTransit? then MarkPayout(w, p, PayoutStatus.Indeterminate) else w
    case TaskAdvance(k, reply) => if k < |w.tasks| then AdvanceTask(w, k, reply) else w
    case TaskCrash(k) => if k < |w.tasks| then WithTask(w, k, Ended(w.tasks[k].payout)) else w
    case DisputeOpen(merchant, currency, amount) => FileDispute(w, merchant, currency, amount)
    case DisputeReview(d) => MarkDispute(w, d, UnderReview)
    case DisputeWin(d) => PostDispute(w, d, WinDispute, Won)
    case DisputeLose(d) => PostDispute(w, d, LoseDispute, Lost)
    case DirectPost(name, op, merchant, currency, amount) => PostDirect(w, name, op, merchant, currency, amount)
  }

  lemma {:induction false} NextIsAdvance(w: World, k: nat, reply: Reply)
    requires k < |w.tasks|
    ensures Next(w, TaskAdvance(k, reply)) == AdvanceTask(w, k, reply)
  {
  }

  function Begin(bps: int): World {
    World(bps, [], [], [], [], [], [], [])
  }

  function After(w: World, steps: seq<Step>): World {
    if steps == [] then w else Next(After(w, steps[..|steps| - 1]), steps[|steps| - 1])
  }

  function Run(bps: int, steps: seq<Step>): World {
    After(Begin(bps), steps)
  }

  lemma {:induction false} AfterOne(w: World, step: Step)
    ensures After(w, [step]) == Next(w, step)
  {
    assert [step][..0] == [];
  }

  lemma {:induction false} AfterMore(w: World, steps: seq<Step>, more: seq<Step>)
    ensures After(w, steps + more) == After(After(w, steps), more)
  {
    if more == [] {
      assert steps + more == steps;
    } else {
      var n := |more| - 1;
      AfterMore(w, steps, more[..n]);
      assert (steps + more)[..|steps + more| - 1] == steps + more[..n];
    }
  }
}
