/**
 * Payouts and the number of executions at work on one of them: with one at a time no
 * money is stranded in payout.in_transit; with two it can be, and this module shows when.
 */
module EnginePayouts {
  import opened Prelude
  import opened Money
  import opened Chart
  import opened Posting
  import opened Books
  import opened Fsm
  import opened Engine
  import opened EngineOutcomes
  import opened EngineBalances
  import opened EngineExamples

  // ---------------------------------------------------- one execution at a time

  predicate ExecutesOn(t: Task, p: nat) {
    t.Executes() && t.payout == p
  }

  ghost predicate NoExecution(w: World, p: nat) {
    forall k :: 0 <= k < |w.tasks| ==> !ExecutesOn(w.tasks[k], p)
  }

  /** No execution of a payout begins while another one is at work on it. */
  ghost predicate OneAtATime(bps: int, steps: seq<Step>) {
    steps == [] ||
    var front, last := steps[..|steps| - 1], steps[|steps| - 1];
    OneAtATime(bps, front) && (last.PayoutStart? ==> NoExecution(Run(bps, front), last.p))
  }

  ghost predicate Solo(tasks: seq<Task>) {
    forall j, k :: 0 <= j < k < |tasks| && tasks[j].Executes() && tasks[k].Executes() ==>
      tasks[j].payout != tasks[k].payout
  }

  /** An execution that has not emitted yet finds the payout as it read it. */
  ghost predicate Waiting(w: World) {
    forall k :: 0 <= k < |w.tasks| && (w.tasks[k].Emitting? || w.tasks[k].Broke?) ==>
      StatusOf(w, w.tasks[k].payout).Requested?
  }

  ghost predicate NoneStranded(payouts: seq<Payout>) {
    forall p :: 0 <= p < |payouts| ==> !Stranded(payouts[p])
  }

  ghost predicate Single(w: World) {
    Solo(w.tasks) && Waiting(w) && NoneStranded(w.payouts)
  }

  /** A change of payout p's row that leaves the others, made by nobody but its holder. */
  lemma {:induction false} RowChanges(w: World, t: World, p: nat)
    requires Single(w) && t.tasks == w.tasks && |t.payouts| == |w.payouts|
    requires forall q :: 0 <= q < |w.payouts| && q != p ==> t.payouts[q] == w.payouts[q]
    requires p < |w.payouts| ==> !Stranded(t.payouts[p])
    requires p < |w.payouts| && w.payouts[p].status.Requested? ==> t.payouts[p].status.Requested?
    ensures Single(t)
  {
  }

  lemma {:induction false} TaskMoves(w: World, k: nat, t: Task)
    requires Single(w) && k < |w.tasks| && t.payout == w.tasks[k].payout
    requires t.Executes() ==> w.tasks[k].Executes()
    requires t.Emitting? || t.Broke? ==> StatusOf(w, t.payout).Requested?
    ensures Single(WithTask(w, k, t))
  {
  }

  lemma {:induction false} ActingStaysSingle(w: World, k: nat, reply: Reply)
    requires Core(w) && Single(w) && k < |w.tasks| && (w.tasks[k].Reporting? || w.tasks[k].HookActing?)
    ensures Single(AdvanceTask(w, k, reply))
  {
    var p := w.tasks[k].payout;
    assert TaskOk(w.payouts, w.tasks[k]);
    var paid, returned := PostPayout(w, p, SettlePayout, PayoutStatus.Paid), PostPayout(w, p, FailPayout, PayoutStatus.Failed);
    var doubted := MarkPayout(w, p, PayoutStatus.Indeterminate);
    RowChanges(w, paid, p);
    RowChanges(w, returned, p);
    RowChanges(w, doubted, p);
    TaskMoves(paid, k, Ended(p));
    TaskMoves(returned, k, Ended(p));
    TaskMoves(doubted, k, Ended(p));
  }

  /** The emission of the one execution at work. */
  lemma {:induction false} EmissionStaysSingle(w: World, k: nat)
    requires Core(w) && Single(w) && k < |w.tasks| && w.tasks[k].Emitting?
    ensures var p := w.tasks[k].payout;
            Single(WithTask(PostPayout(w, p, EmitPayout, PayoutStatus.InTransit), k, Calling(p)))
  {
    var p := w.tasks[k].payout;
    var t := WithTask(PostPayout(w, p, EmitPayout, PayoutStatus.InTransit), k, Calling(p));
    forall j | 0 <= j < |t.tasks| && (t.tasks[j].Emitting? || t.tasks[j].Broke?)
      ensures StatusOf(t, t.tasks[j].payout).Requested?
    {
      assert j != k && t.tasks[j] == w.tasks[j];
      assert t.tasks[j].payout != p;
    }
  }

  lemma {:induction false} EmittingStaysSingle(w: World, k: nat, reply: Reply)
    requires Core(w) && Single(w) && k < |w.tasks| && w.tasks[k].Emitting?
    ensures Single(AdvanceTask(w, k, reply))
  {
    var p := w.tasks[k].payout;
    assert TaskOk(w.payouts, w.tasks[k]);
    EmissionStaysSingle(w, k);
    TaskMoves(w, k, Calling(p));
    TaskMoves(w, k, Broke(p));
    TaskMoves(w, k, Ended(p));
  }

  /** Giving up finds the payout still requested, so nothing of it is in transit. */
  lemma {:induction false} BrokeStaysSingle(w: World, k: nat, reply: Reply)
    requires Core(w) && Single(w) && k < |w.tasks| && w.tasks[k].Broke?
    ensures Single(AdvanceTask(w, k, reply))
  {
    var p := w.tasks[k].payout;
    assert TaskOk(w.payouts, w.tasks[k]) && PayoutOk(w.payouts[p]);
    var t := WithTask(MarkPayout(w, p, PayoutStatus.Failed), k, Ended(p));
    forall j | 0 <= j < |t.tasks| && (t.tasks[j].Emitting? || t.tasks[j].Broke?)
      ensures StatusOf(t, t.tasks[j].payout).Requested?
    {
      assert j != k && t.tasks[j] == w.tasks[j];
      assert t.tasks[j].payout != p;
    }
  }

  lemma {:induction false} QuietStaysSingle(w: World, k: nat, reply: Reply)
    requires Single(w) && k < |w.tasks|
    requires w.tasks[k].Reading? || w.tasks[k].Calling? || w.tasks[k].HookReading? || w.tasks[k].Ended?
    ensures Single(AdvanceTask(w, k, reply))
  {
    var p := w.tasks[k].payout;
    match w.tasks[k]
    case Reading(_) =>
      TaskMoves(w, k, Calling(p));
      TaskMoves(w, k, Ended(p));
      if StatusOf(w, p).Requested? {
        TaskMoves(w, k, Emitting(p));
      }
    case Calling(_) => TaskMoves(w, k, Reporting(p, reply));
    case HookReading(_, paid) =>
      TaskMoves(w, k, HookActing(p, paid));
      TaskMoves(w, k, Ended(p));
    case _ =>
  }

  lemma {:induction false} AdvanceStaysSingle(w: World, k: nat, reply: Reply)
    requires Core(w) && Single(w)
    ensures Single(Next(w, TaskAdvance(k, reply)))
  {
    if k < |w.tasks| {
      NextIsAdvance(w, k, reply);
      match w.tasks[k]
      case Emitting(_) => EmittingStaysSingle(w, k, reply);
      case Broke(_) => BrokeStaysSingle(w, k, reply);
      case Reporting(_, _) => ActingStaysSingle(w, k, reply);
      case HookActing(_, _) => ActingStaysSingle(w, k, reply);
      case _ => QuietStaysSingle(w, k, reply);
    }
  }

  lemma {:induction false} StartStaysSingle(w: World, p: nat)
    requires Single(w) && NoExecution(w, p)
    ensures Single(Next(w, PayoutStart(p)))
  {
    var t := Next(w, PayoutStart(p));
    forall j, k | 0 <= j < k < |t.tasks| && t.tasks[j].Executes() && t.tasks[k].Executes()
      ensures t.tasks[j].payout != t.tasks[k].payout
    {
      assert !ExecutesOn(w.tasks[j], p);
    }
  }

  lemma {:induction false} OthersStaySingle(w: World, step: Step)
    requires Core(w) && Single(w) && !step.TaskAdvance? && !step.PayoutStart?
    ensures Single(Next(w, step))
  {
    if step.PayoutSweep? {
      RowChanges(w, Next(w, step), step.p);
    } else if step.TaskCrash? {
      if step.k < |w.tasks| {
        TaskMoves(w, step.k, Ended(w.tasks[step.k].payout));
      }
    } else if step.PayoutBegin? {
      BeginStaysSingle(w, step);
    } else if step.PayoutHear? {
      HearStaysSingle(w, step.p, step.paid);
    } else {
      ElsewhereSameRows(w, step);
    }
  }

  lemma {:induction false} ElsewhereSameRows(w: World, step: Step)
    requires !step.TaskAdvance? && !step.TaskCrash? && !step.PayoutStart? && !step.PayoutHear?
    requires !step.PayoutSweep? && !step.PayoutBegin?
    ensures Next(w, step).payouts == w.payouts && Next(w, step).tasks == w.tasks
  {
  }

  lemma {:induction false} BeginStaysSingle(w: World, step: Step)
    requires Core(w) && Single(w) && step.PayoutBegin?
    ensures Single(Next(w, step))
  {
    var t := Next(w, step);
    forall k | 0 <= k < |t.tasks| && (t.tasks[k].Emitting? || t.tasks[k].Broke?)
      ensures StatusOf(t, t.tasks[k].payout).Requested?
    {
      assert TaskOk(w.payouts, w.tasks[k]);
    }
  }

  lemma {:induction false} HearStaysSingle(w: World, p: nat, paid: bool)
    requires Single(w)
    ensures Single(Next(w, PayoutHear(p, paid)))
  {
  }

  lemma {:induction false} OneAtATimeIsSingle(bps: int, steps: seq<Step>)
    requires OneAtATime(bps, steps)
    ensures Single(Run(bps, steps))
  {
    if steps != [] {
      var front, last := steps[..|steps| - 1], steps[|steps| - 1];
      OneAtATimeIsSingle(bps, front);
      RunKeepsCore(bps, front);
      match last
      case TaskAdvance(k, reply) => AdvanceStaysSingle(Run(bps, front), k, reply);
      case PayoutStart(p) => StartStaysSingle(Run(bps, front), p);
      case _ => OthersStaySingle(Run(bps, front), last);
    }
  }

  /**
   * With at most one execution of each payout at work, whatever the webhooks, sweeps
   * and crashes: payout.in_transit is exactly the payouts in transit or indeterminate,
   * and no failed payout keeps its money.
   */
  lemma {:induction false} InTransitCustody(bps: int, steps: seq<Step>, merchant: string, currency: Currency)
    requires OneAtATime(bps, steps)
    ensures var w := Run(bps, steps);
            Bal(w.log, Acct(PayoutInTransit, merchant, currency)) == Sum(w.payouts, PayoutsOnTheirWay(currency))
    ensures NoneStranded(Run(bps, steps).payouts)
  {
    OneAtATimeIsSingle(bps, steps);
    InTransitFollowsStatuses(bps, steps, merchant, currency);
    SumVanishes(Run(bps, steps).payouts, StrandedMoney(currency));
  }

  /** So the balances of merchants have no stranded part either. */
  lemma {:induction false} AvailableWithOneAtATime(bps: int, steps: seq<Step>, merchant: string, currency: Currency)
    requires OneAtATime(bps, steps)
    ensures var w := Run(bps, steps);
            Bal(w.log, Acct(MerchantAvailable, merchant, currency))
            == Sum(w.log, Releases(merchant, currency))
               - Bal(w.log, Acct(MerchantReserve, merchant, currency))
               - Sum(w.refunds, RefundsTaken(merchant, currency))
               - Sum(w.payouts, PayoutsUnderway(merchant, currency))
               - Sum(w.disputes, DisputesTaken(merchant, currency))
  {
    OneAtATimeIsSingle(bps, steps);
    AvailableFollowsStatuses(bps, steps, merchant, currency);
    var payouts := Run(bps, steps).payouts;
    forall p | 0 <= p < |payouts|
      ensures PayoutsTaken(merchant, currency)(payouts[p]) == PayoutsUnderway(merchant, currency)(payouts[p])
    {
      assert !Stranded(payouts[p]);
    }
    SumSame(payouts, PayoutsTaken(merchant, currency), PayoutsUnderway(merchant, currency));
  }

  function PayoutsUnderway(merchant: string, currency: Currency): Payout -> int {
    (p: Payout) =>
      if p.merchant == merchant && p.currency == currency
         && (p.status.InTransit? || p.status.Indeterminate? || p.status.Paid?) then p.amount
      else 0
  }

  // -------------------------------------------------------- when it fails

  /** A stranded payout, told by its status and postings alone: failed, emitted and never returned. */
  lemma {:induction false} StrandedMeans(bps: int, steps: seq<Step>, p: nat)
    requires p < |Run(bps, steps).payouts|
    ensures var w := Run(bps, steps);
            Stranded(w.payouts[p]) <==>
            && w.payouts[p].status.Failed?
            && Has(w.log, ResourceKey(EmitPayout, p)) && !Has(w.log, ResourceKey(FailPayout, p))
  {
    RunKeepsCore(bps, steps);
    var w := Run(bps, steps);
    assert PayoutKeyed(w.log, w.payouts, p);
  }

  /**
   * An execution that was refused for lack of balance, while somebody else has emitted
   * the payout in the meantime and it is not yet closed, is about to record the failure.
   */
  predicate GivesUpLate(w: World, step: Step, p: nat) {
    && step.TaskAdvance? && step.k < |w.tasks| && w.tasks[step.k] == Broke(p)
    && (StatusOf(w, p).InTransit? || StatusOf(w, p).Indeterminate?)
  }

  lemma {:induction false} PostingsStrandNone(w: World, q: nat, op: Operation, to: PayoutStatus, p: nat)
    requires p < |w.payouts| && !Stranded(w.payouts[p])
    requires (op.EmitPayout? && to.InTransit?) || (op.SettlePayout? && to.Paid?) || (op.FailPayout? && to.Failed?)
    ensures p < |PostPayout(w, q, op, to).payouts| && !Stranded(PostPayout(w, q, op, to).payouts[p])
  {
  }

  lemma {:induction false} DoubtStrandsNone(w: World, q: nat, p: nat)
    requires p < |w.payouts| && !Stranded(w.payouts[p])
    ensures var t := MarkPayout(w, q, PayoutStatus.Indeterminate); p < |t.payouts| && !Stranded(t.payouts[p])
  {
  }

  lemma {:induction false} GivingUpStrands(w: World, k: nat, reply: Reply, p: nat)
    requires Core(w) && k < |w.tasks| && w.tasks[k].Broke? && p < |w.payouts| && !Stranded(w.payouts[p])
    ensures p < |AdvanceTask(w, k, reply).payouts|
    ensures Stranded(AdvanceTask(w, k, reply).payouts[p]) <==> GivesUpLate(w, TaskAdvance(k, reply), p)
  {
    assert TaskOk(w.payouts, w.tasks[k]);
    assert PayoutOk(w.payouts[p]);
  }

  lemma {:induction false} ActingStrandsNone(w: World, k: nat, reply: Reply, p: nat)
    requires k < |w.tasks| && (w.tasks[k].Reporting? || w.tasks[k].HookActing?)
    requires p < |w.payouts| && !Stranded(w.payouts[p])
    ensures p < |AdvanceTask(w, k, reply).payouts| && !Stranded(AdvanceTask(w, k, reply).payouts[p])
  {
    var q := w.tasks[k].payout;
    PostingsStrandNone(w, q, SettlePayout, PayoutStatus.Paid, p);
    PostingsStrandNone(w, q, FailPayout, PayoutStatus.Failed, p);
    DoubtStrandsNone(w, q, p);
  }

  lemma {:induction false} EmittingStrandsNone(w: World, k: nat, reply: Reply, p: nat)
    requires k < |w.tasks| && w.tasks[k].Emitting? && p < |w.payouts| && !Stranded(w.payouts[p])
    ensures p < |AdvanceTask(w, k, reply).payouts| && !Stranded(AdvanceTask(w, k, reply).payouts[p])
  {
    PostingsStrandNone(w, w.tasks[k].payout, EmitPayout, PayoutStatus.InTransit, p);
  }

  lemma {:induction false} QuietStrandsNone(w: World, k: nat, reply: Reply, p: nat)
    requires k < |w.tasks| && p < |w.payouts| && !Stranded(w.payouts[p])
    requires w.tasks[k].Reading? || w.tasks[k].Calling? || w.tasks[k].HookReading? || w.tasks[k].Ended?
    ensures p < |AdvanceTask(w, k, reply).payouts| && !Stranded(AdvanceTask(w, k, reply).payouts[p])
  {
  }

  lemma {:induction false} AdvanceStrandsIff(w: World, k: nat, reply: Reply, p: nat)
    requires Core(w) && k < |w.tasks| && p < |w.payouts| && !Stranded(w.payouts[p])
    ensures p < |AdvanceTask(w, k, reply).payouts|
    ensures Stranded(AdvanceTask(w, k, reply).payouts[p]) <==> GivesUpLate(w, TaskAdvance(k, reply), p)
  {
    match w.tasks[k]
    case Broke(_) => GivingUpStrands(w, k, reply, p);
    case Emitting(_) => EmittingStrandsNone(w, k, reply, p);
    case Reporting(_, _) => ActingStrandsNone(w, k, reply, p);
    case HookActing(_, _) => ActingStrandsNone(w, k, reply, p);
    case _ => QuietStrandsNone(w, k, reply, p);
  }

  lemma {:induction false} OthersStrandNone(w: World, step: Step, p: nat)
    requires !step.TaskAdvance? && p < |w.payouts| && !Stranded(w.payouts[p])
    ensures p < |Next(w, step).payouts| && !Stranded(Next(w, step).payouts[p])
  {
    if step.PayoutSweep? {
      DoubtStrandsNone(w, step.p, p);
    } else if step.PayoutBegin? || step.TaskCrash? || step.PayoutStart? || step.PayoutHear? {
    } else {
      ElsewhereSameRows(w, step);
    }
  }

  /**
   * Of all the steps that any process can take, one strands the money of a payout exactly
   * when an execution gives up late on it.
   */
  lemma {:induction false} StrandsIffGivesUpLate(w: World, step: Step, p: nat)
    requires Core(w) && p < |w.payouts| && !Stranded(w.payouts[p])
    ensures p < |Next(w, step).payouts|
    ensures Stranded(Next(w, step).payouts[p]) <==> GivesUpLate(w, step, p)
  {
    if !step.TaskAdvance? {
      OthersStrandNone(w, step, p);
    } else if step.k < |w.tasks| {
      NextIsAdvance(w, step.k, step.reply);
      AdvanceStrandsIff(w, step.k, step.reply, p);
    }
  }

  /** A payout that is new, or that is there already and not stranded, is stranded only so. */
  lemma {:induction false} NewPayoutsAreNotStranded(w: World, step: Step, p: nat)
    requires |w.payouts| <= p < |Next(w, step).payouts|
    ensures !Stranded(Next(w, step).payouts[p])
  {
    if step.TaskAdvance? {
      if step.k < |w.tasks| {
        NextIsAdvance(w, step.k, step.reply);
        AdvanceAddsNoPayout(w, step.k, step.reply);
      }
    } else {
      OthersAddRequested(w, step, p);
    }
  }

  lemma {:induction false} AdvanceAddsNoPayout(w: World, k: nat, reply: Reply)
    requires k < |w.tasks|
    ensures |AdvanceTask(w, k, reply).payouts| == |w.payouts|
  {
  }

  lemma {:induction false} OthersAddRequested(w: World, step: Step, p: nat)
    requires !step.TaskAdvance? && |w.payouts| <= p < |Next(w, step).payouts|
    ensures !Stranded(Next(w, step).payouts[p])
  {
  }

  /** Somewhere on the run an execution gave up late on payout p. */
  ghost predicate GaveUpLate(bps: int, steps: seq<Step>, p: nat) {
    steps != [] &&
    var front, last := steps[..|steps| - 1], steps[|steps| - 1];
    GaveUpLate(bps, front, p) || GivesUpLate(Run(bps, front), last, p)
  }

  lemma {:induction false} GivingUpConcernsARow(w: World, step: Step, p: nat)
    requires Core(w) && GivesUpLate(w, step, p)
    ensures p < |w.payouts|
  {
    assert TaskOk(w.payouts, w.tasks[step.k]);
  }

  /**
   * On every run, with any number of executions: the money of a payout is stranded
   * exactly when some execution gave up late on it.
   */
  lemma {:induction false} StrandedIffGaveUpLate(bps: int, steps: seq<Step>, p: nat)
    ensures var w := Run(bps, steps);
            (p < |w.payouts| && Stranded(w.payouts[p])) <==> GaveUpLate(bps, steps, p)
  {
    if steps != [] {
      var front, last := steps[..|steps| - 1], steps[|steps| - 1];
      var before := Run(bps, front);
      StrandedIffGaveUpLate(bps, front, p);
      RunKeepsCore(bps, front);
      if p >= |before.payouts| {
        if p < |Next(before, last).payouts| {
          NewPayoutsAreNotStranded(before, last, p);
        }
        if GivesUpLate(before, last, p) {
          GivingUpConcernsARow(before, last, p);
        }
      } else if Stranded(before.payouts[p]) {
        NextKeepsFinalRows(before, last);
      } else {
        StrandsIffGivesUpLate(before, last, p);
      }
    }
  }

  lemma {:induction false} StrandedMoneyIsNone(payouts: seq<Payout>, currency: Currency)
    requires forall p :: 0 <= p < |payouts| ==> payouts[p].amount > 0
    ensures Sum(payouts, StrandedMoney(currency)) == 0 <==>
            forall p :: 0 <= p < |payouts| && payouts[p].currency == currency ==> !Stranded(payouts[p])
  {
    if exists p :: 0 <= p < |payouts| && payouts[p].currency == currency && Stranded(payouts[p]) {
      var p :| 0 <= p < |payouts| && payouts[p].currency == currency && Stranded(payouts[p]);
      SumBoundsTerm(payouts, StrandedMoney(currency), p);
    } else {
      SumVanishes(payouts, StrandedMoney(currency));
    }
  }

  /**
   * The custody claim for payouts in full: on every run payout.in_transit is exactly the
   * payouts in transit or indeterminate, in a currency, if and only if no execution gave
   * up late on a payout of that currency.
   */
  lemma {:induction false} InTransitCustodyIff(bps: int, steps: seq<Step>, merchant: string, currency: Currency)
    ensures var w := Run(bps, steps);
            (Bal(w.log, Acct(PayoutInTransit, merchant, currency)) == Sum(w.payouts, PayoutsOnTheirWay(currency)))
            <==>
            (forall p :: 0 <= p < |w.payouts| && w.payouts[p].currency == currency ==> !GaveUpLate(bps, steps, p))
  {
    var w := Run(bps, steps);
    InTransitFollowsStatuses(bps, steps, merchant, currency);
    RunKeepsAmounts(bps, steps);
    StrandedMoneyIsNone(w.payouts, currency);
    forall p | 0 <= p < |w.payouts| ensures Stranded(w.payouts[p]) <==> GaveUpLate(bps, steps, p) {
      StrandedIffGaveUpLate(bps, steps, p);
    }
  }

  // A sale of n is captured and released; a payout of n is requested and two executions
  // read it. A hold drains the merchant, so the second is refused; the hold is undone and
  // the first emits; then the second records the failure that it was told of.

  function TwoExecutions(m: string, c: Currency, n: int): seq<Step> {
    [PayoutBegin(m, c, n), PayoutStart(0), PayoutStart(0), TaskAdvance(0, Unclear), TaskAdvance(1, Unclear)]
  }

  function Wanted(m: string, c: Currency, n: int): Payout {
    Payout(m, c, n, PayoutStatus.Requested, false)
  }

  lemma {:induction false} FirstStarts(m: string, c: Currency, n: int)
    requires n > 0
    ensures Next(Next(Sold(m, c, n, Released(m, c, n), [], []), PayoutBegin(m, c, n)), PayoutStart(0))
         == Sold(m, c, n, Released(m, c, n), [Wanted(m, c, n)], [Reading(0)])
  {
    ReleasedBalances(m, c, n);
    var w := Sold(m, c, n, Released(m, c, n), [], []);
    assert Next(w, PayoutBegin(m, c, n)) == Sold(m, c, n, Released(m, c, n), [Wanted(m, c, n)], []);
  }

  lemma {:induction false} SecondStarts(m: string, c: Currency, n: int)
    ensures var w := Sold(m, c, n, Released(m, c, n), [Wanted(m, c, n)], [Reading(0)]);
            Next(Next(w, PayoutStart(0)), TaskAdvance(0, Unclear))
            == Sold(m, c, n, Released(m, c, n), [Wanted(m, c, n)], [Emitting(0), Reading(0)])
  {
    var w := Sold(m, c, n, Released(m, c, n), [Wanted(m, c, n)], [Reading(0)]);
    var w1 := Next(w, PayoutStart(0));
    assert w1 == Sold(m, c, n, Released(m, c, n), [Wanted(m, c, n)], [Reading(0), Reading(0)]);
    NextIsAdvance(w1, 0, Unclear);
  }

  lemma {:induction false} SecondReads(m: string, c: Currency, n: int)
    ensures var w := Sold(m, c, n, Released(m, c, n), [Wanted(m, c, n)], [Emitting(0), Reading(0)]);
            Next(w, TaskAdvance(1, Unclear))
            == Sold(m, c, n, Released(m, c, n), [Wanted(m, c, n)], [Emitting(0), Emitting(0)])
  {
    NextIsAdvance(Sold(m, c, n, Released(m, c, n), [Wanted(m, c, n)], [Emitting(0), Reading(0)]), 1, Unclear);
  }

  lemma {:induction false} ExecutionsRead(m: string, c: Currency, n: int)
    requires n > 0
    ensures After(Sold(m, c, n, Released(m, c, n), [], []), TwoExecutions(m, c, n))
         == Sold(m, c, n, Released(m, c, n), [Wanted(m, c, n)], [Emitting(0), Emitting(0)])
  {
    var w := Sold(m, c, n, Released(m, c, n), [], []);
    FirstStarts(m, c, n);
    SecondStarts(m, c, n);
    SecondReads(m, c, n);
    AfterFour(w, PayoutBegin(m, c, n), PayoutStart(0), PayoutStart(0), TaskAdvance(0, Unclear));
    var four := [PayoutBegin(m, c, n), PayoutStart(0), PayoutStart(0), TaskAdvance(0, Unclear)];
    AfterOne(After(w, four), TaskAdvance(1, Unclear));
    AfterMore(w, four, [TaskAdvance(1, Unclear)]);
    assert TwoExecutions(m, c, n) == four + [TaskAdvance(1, Unclear)];
  }

  function Held(m: string, c: Currency, n: int): seq<Move> {
    Released(m, c, n) + [Directed("hold", HoldReserve, m, c, n)]
  }

  function Freed(m: string, c: Currency, n: int): seq<Move> {
    Held(m, c, n) + [Directed("free", ReleaseReserve, m, c, n)]
  }

  function Emission(m: string, c: Currency, n: int): Move {
    Move(ResourceKey(EmitPayout, 0), Legs(EmitPayout), m, c, n)
  }

  lemma {:induction false} HoldDrains(m: string, c: Currency, n: int)
    ensures Bal(Held(m, c, n), Acct(MerchantAvailable, m, c)) == 0
    ensures Bal(Held(m, c, n), Acct(MerchantReserve, m, c)) == n
    ensures Bal(Freed(m, c, n), Acct(MerchantAvailable, m, c)) == n
  {
    var x, y := Acct(MerchantAvailable, m, c), Acct(MerchantReserve, m, c);
    var hold, free := Directed("hold", HoldReserve, m, c, n), Directed("free", ReleaseReserve, m, c, n);
    ReleasedBalances(m, c, n);
    BalOfNext(Released(m, c, n), hold, x, n);
    BalOfNext(Held(m, c, n), free, x, 0);
    BalOfOne(Charged(m, c, n), y);
    BalOfNext([Charged(m, c, n)], Directed("release", ReleaseSettlement, m, c, n), y, 0);
    assert Released(m, c, n) == [Charged(m, c, n)] + [Directed("release", ReleaseSettlement, m, c, n)];
    BalOfNext(Released(m, c, n), hold, y, 0);
  }

  /** None of the keys that come next is in the log yet. */
  lemma {:induction false} FreshKeys(m: string, c: Currency, n: int)
    ensures !Has(Released(m, c, n), DirectKey("hold"))
    ensures !Has(Held(m, c, n), DirectKey("free"))
    ensures !Has(Held(m, c, n), ResourceKey(EmitPayout, 0))
    ensures !Has(Freed(m, c, n), ResourceKey(EmitPayout, 0))
  {
    var charged, release := Charged(m, c, n), Directed("release", ReleaseSettlement, m, c, n);
    var hold, free := Directed("hold", HoldReserve, m, c, n), Directed("free", ReleaseReserve, m, c, n);
    assert Released(m, c, n) == [] + [charged] + [release];
    assert "hold"[0] == 'h' && "release"[0] == 'r' && "free"[0] == 'f';
    HasPush([], charged, DirectKey("hold"));
    HasPush([] + [charged], release, DirectKey("hold"));
    HasPush([], charged, DirectKey("free"));
    HasPush([] + [charged], release, DirectKey("free"));
    HasPush(Released(m, c, n), hold, DirectKey("free"));
    HasPush([], charged, ResourceKey(EmitPayout, 0));
    HasPush([] + [charged], release, ResourceKey(EmitPayout, 0));
    HasPush(Released(m, c, n), hold, ResourceKey(EmitPayout, 0));
    HasPush(Held(m, c, n), free, ResourceKey(EmitPayout, 0));
  }

  lemma {:induction false} HoldAndRefusal(m: string, c: Currency, n: int)
    requires n > 0
    ensures var w := Sold(m, c, n, Released(m, c, n), [Wanted(m, c, n)], [Emitting(0), Emitting(0)]);
            Next(Next(w, DirectPost("hold", HoldReserve, m, c, n)), TaskAdvance(1, Unclear))
            == Sold(m, c, n, Held(m, c, n), [Wanted(m, c, n)], [Emitting(0), Broke(0)])
  {
    var w := Sold(m, c, n, Released(m, c, n), [Wanted(m, c, n)], [Emitting(0), Emitting(0)]);
    ReleasedBalances(m, c, n);
    FreshKeys(m, c, n);
    HoldDrains(m, c, n);
    var w1 := Next(w, DirectPost("hold", HoldReserve, m, c, n));
    assert w1 == Sold(m, c, n, Held(m, c, n), [Wanted(m, c, n)], [Emitting(0), Emitting(0)]);
    NextIsAdvance(w1, 1, Unclear);
    assert PayoutMove(w1, 0, EmitPayout) == Emission(m, c, n);
    assert Ask(Held(m, c, n), Emission(m, c, n)) == Insufficient;
  }

  lemma {:induction false} ReleaseAndEmission(m: string, c: Currency, n: int)
    requires n > 0
    ensures var w := Sold(m, c, n, Held(m, c, n), [Wanted(m, c, n)], [Emitting(0), Broke(0)]);
            Next(Next(w, DirectPost("free", ReleaseReserve, m, c, n)), TaskAdvance(0, Unclear))
            == Sold(m, c, n, Freed(m, c, n) + [Emission(m, c, n)], [Payout(m, c, n, PayoutStatus.InTransit, true)],
                    [Calling(0), Broke(0)])
  {
    var w := Sold(m, c, n, Held(m, c, n), [Wanted(m, c, n)], [Emitting(0), Broke(0)]);
    FreshKeys(m, c, n);
    HoldDrains(m, c, n);
    var w1 := Next(w, DirectPost("free", ReleaseReserve, m, c, n));
    assert w1 == Sold(m, c, n, Freed(m, c, n), [Wanted(m, c, n)], [Emitting(0), Broke(0)]);
    NextIsAdvance(w1, 0, Unclear);
    assert PayoutMove(w1, 0, EmitPayout) == Emission(m, c, n);
    assert Ask(Freed(m, c, n), Emission(m, c, n)) == Posted;
  }

  lemma {:induction false} FailureRecorded(w: World)
    requires |w.payouts| == 1 && w.payouts[0].status.InTransit? && w.payouts[0].held
    requires |w.tasks| == 2 && w.tasks[1] == Broke(0)
    ensures Next(w, TaskAdvance(1, Unclear)).payouts == [w.payouts[0].(status := PayoutStatus.Failed)]
  {
    NextIsAdvance(w, 1, Unclear);
  }

  function StrandingRun(m: string, c: Currency, n: int): seq<Step> {
    Sale(m, c, n) + (TwoExecutions(m, c, n) + ([DirectPost("hold", HoldReserve, m, c, n), TaskAdvance(1, Unclear)]
    + ([DirectPost("free", ReleaseReserve, m, c, n), TaskAdvance(0, Unclear)] + [TaskAdvance(1, Unclear)])))
  }

  /**
   * Two executions of one payout can leave it failed with its whole amount in
   * payout.in_transit, where no status accounts for it.
   */
  lemma {:induction false} TwoExecutionsStrand(m: string, c: Currency, n: int)
    requires n > 0
    ensures var w := Run(0, StrandingRun(m, c, n));
            && w.payouts == [Payout(m, c, n, PayoutStatus.Failed, true)]
            && Bal(w.log, Acct(PayoutInTransit, m, c)) == n
            && Sum(w.payouts, PayoutsOnTheirWay(c)) == 0
  {
    SaleWorks(m, c, n);
    ExecutionsRead(m, c, n);
    HoldAndRefusal(m, c, n);
    ReleaseAndEmission(m, c, n);
    var w1 := Sold(m, c, n, Released(m, c, n), [], []);
    var w2 := Sold(m, c, n, Released(m, c, n), [Wanted(m, c, n)], [Emitting(0), Emitting(0)]);
    var w3 := Sold(m, c, n, Held(m, c, n), [Wanted(m, c, n)], [Emitting(0), Broke(0)]);
    var w4 := Sold(m, c, n, Freed(m, c, n) + [Emission(m, c, n)], [Payout(m, c, n, PayoutStatus.InTransit, true)],
                   [Calling(0), Broke(0)]);
    var hold := [DirectPost("hold", HoldReserve, m, c, n), TaskAdvance(1, Unclear)];
    var free := [DirectPost("free", ReleaseReserve, m, c, n), TaskAdvance(0, Unclear)];
    AfterTwo(w2, hold[0], hold[1]);
    AfterTwo(w3, free[0], free[1]);
    AfterOne(w4, TaskAdvance(1, Unclear));
    AfterMore(Begin(0), Sale(m, c, n), TwoExecutions(m, c, n) + (hold + (free + [TaskAdvance(1, Unclear)])));
    AfterMore(w1, TwoExecutions(m, c, n), hold + (free + [TaskAdvance(1, Unclear)]));
    AfterMore(w2, hold, free + [TaskAdvance(1, Unclear)]);
    AfterMore(w3, free, [TaskAdvance(1, Unclear)]);
    FailureRecorded(w4);
    StrandedSums(Payout(m, c, n, PayoutStatus.Failed, true));
    InTransitFollowsStatuses(0, StrandingRun(m, c, n), m, c);
  }

  lemma {:induction false} StrandedSums(p: Payout)
    requires Stranded(p)
    ensures Sum([p], PayoutsOnTheirWay(p.currency)) == 0 && Sum([p], StrandedMoney(p.currency)) == p.amount
  {
    assert [p] == [] + [p];
    SumPush([], p, PayoutsOnTheirWay(p.currency));
    SumPush([], p, StrandedMoney(p.currency));
  }
}
