/**
 * Which postings a row has behind it, on every run: each status tells exactly which of
 * the row's keys the ledger holds, so the two closing postings of a refund, a payout or
 * a dispute exclude each other.
 */
module EngineOutcomes {
  import opened Prelude
  import opened Money
  import opened Posting
  import opened Books
  import opened Fsm
  import opened Engine

  predicate IsRefundOp(op: Operation) {
    op.RequestRefund? || op.SettleRefund? || op.CancelRefund?
  }

  predicate IsPayoutOp(op: Operation) {
    op.EmitPayout? || op.SettlePayout? || op.FailPayout?
  }

  predicate IsDisputeOp(op: Operation) {
    op.OpenDispute? || op.WinDispute? || op.LoseDispute?
  }

  ghost predicate AttemptKeyed(log: seq<Move>, attempts: seq<Attempt>, a: nat) {
    Has(log, AttemptKey(a)) <==> a < |attempts| && attempts[a].status.Succeeded?
  }

  ghost predicate RefundKeyed(log: seq<Move>, refunds: seq<Refund>, r: nat) {
    && (Has(log, ResourceKey(RequestRefund, r)) <==>
          r < |refunds| && !refunds[r].status.Created? && !refunds[r].status.Canceled?)
    && (Has(log, ResourceKey(Operation.SettleRefund, r)) <==> r < |refunds| && refunds[r].status.Succeeded?)
    && (Has(log, ResourceKey(CancelRefund, r)) <==> r < |refunds| && refunds[r].status.Failed?)
  }

  ghost predicate PayoutKeyed(log: seq<Move>, payouts: seq<Payout>, p: nat) {
    var returned := Has(log, ResourceKey(FailPayout, p));
    && (Has(log, ResourceKey(SettlePayout, p)) <==> p < |payouts| && payouts[p].status.Paid?)
    && (returned ==> p < |payouts| && payouts[p].status.Failed? && !payouts[p].held)
    && (Has(log, ResourceKey(EmitPayout, p)) <==>
          p < |payouts| && (payouts[p].held || payouts[p].status.Paid? || returned))
  }

  ghost predicate DisputeKeyed(log: seq<Move>, disputes: seq<Dispute>, d: nat) {
    && (Has(log, ResourceKey(Operation.OpenDispute, d)) <==> d < |disputes|)
    && (Has(log, ResourceKey(WinDispute, d)) <==> d < |disputes| && disputes[d].status.Won?)
    && (Has(log, ResourceKey(LoseDispute, d)) <==> d < |disputes| && disputes[d].status.Lost?)
  }

  ghost predicate AttemptsKeyed(log: seq<Move>, attempts: seq<Attempt>) {
    forall a: nat :: AttemptKeyed(log, attempts, a)
  }

  ghost predicate RefundsKeyed(log: seq<Move>, refunds: seq<Refund>) {
    forall r: nat :: RefundKeyed(log, refunds, r)
  }

  ghost predicate PayoutsKeyed(log: seq<Move>, payouts: seq<Payout>) {
    forall p: nat :: PayoutKeyed(log, payouts, p)
  }

  ghost predicate DisputesKeyed(log: seq<Move>, disputes: seq<Dispute>) {
    forall d: nat :: DisputeKeyed(log, disputes, d)
  }

  /** A payout on its way holds its money; one not sent, or paid, does not. */
  predicate PayoutOk(p: Payout) {
    && (p.status.InTransit? || p.status.Indeterminate? ==> p.held)
    && (p.status.Requested? || p.status.Paid? ==> !p.held)
  }

  ghost predicate PayoutsOk(payouts: seq<Payout>) {
    forall p :: 0 <= p < |payouts| ==> PayoutOk(payouts[p])
  }

  /** A process that may report an outcome knows that the payout was emitted. */
  predicate TaskOk(payouts: seq<Payout>, t: Task) {
    && t.payout < |payouts|
    && (t.Calling? || t.Reporting? || t.HookActing? ==> !payouts[t.payout].status.Requested?)
  }

  ghost predicate TasksOk(payouts: seq<Payout>, tasks: seq<Task>) {
    forall k :: 0 <= k < |tasks| ==> TaskOk(payouts, tasks[k])
  }

  ghost predicate KeysDistinct(log: seq<Move>) {
    forall i, j :: 0 <= i < j < |log| ==> log[i].key != log[j].key
  }

  ghost predicate Core(w: World) {
    && AttemptsKeyed(w.log, w.attempts) && RefundsKeyed(w.log, w.refunds)
    && PayoutsKeyed(w.log, w.payouts) && DisputesKeyed(w.log, w.disputes)
    && PayoutsOk(w.payouts) && TasksOk(w.payouts, w.tasks) && KeysDistinct(w.log)
  }

  // -------------------------------------------------- appending to the log

  lemma {:induction false} DistinctPush(log: seq<Move>, m: Move)
    requires KeysDistinct(log) && !Has(log, m.key)
    ensures KeysDistinct(log + [m])
  {
    HasIsIn(log, m.key);
  }

  lemma {:induction false} AttemptsUntouched(log: seq<Move>, m: Move, attempts: seq<Attempt>)
    requires AttemptsKeyed(log, attempts) && !m.key.AttemptKey?
    ensures AttemptsKeyed(log + [m], attempts)
  {
    forall a: nat ensures AttemptKeyed(log + [m], attempts, a) {
      assert AttemptKeyed(log, attempts, a);
      HasPush(log, m, AttemptKey(a));
    }
  }

  lemma {:induction false} RefundsUntouched(log: seq<Move>, m: Move, refunds: seq<Refund>)
    requires RefundsKeyed(log, refunds) && !(m.key.ResourceKey? && IsRefundOp(m.key.op))
    ensures RefundsKeyed(log + [m], refunds)
  {
    forall r: nat ensures RefundKeyed(log + [m], refunds, r) {
      assert RefundKeyed(log, refunds, r);
      HasPush(log, m, ResourceKey(RequestRefund, r));
      HasPush(log, m, ResourceKey(Operation.SettleRefund, r));
      HasPush(log, m, ResourceKey(CancelRefund, r));
    }
  }

  lemma {:induction false} PayoutsUntouched(log: seq<Move>, m: Move, payouts: seq<Payout>)
    requires PayoutsKeyed(log, payouts) && !(m.key.ResourceKey? && IsPayoutOp(m.key.op))
    ensures PayoutsKeyed(log + [m], payouts)
  {
    forall p: nat ensures PayoutKeyed(log + [m], payouts, p) {
      assert PayoutKeyed(log, payouts, p);
      HasPush(log, m, ResourceKey(EmitPayout, p));
      HasPush(log, m, ResourceKey(SettlePayout, p));
      HasPush(log, m, ResourceKey(FailPayout, p));
    }
  }

  lemma {:induction false} DisputesUntouched(log: seq<Move>, m: Move, disputes: seq<Dispute>)
    requires DisputesKeyed(log, disputes) && !(m.key.ResourceKey? && IsDisputeOp(m.key.op))
    ensures DisputesKeyed(log + [m], disputes)
  {
    forall d: nat ensures DisputeKeyed(log + [m], disputes, d) {
      assert DisputeKeyed(log, disputes, d);
      HasPush(log, m, ResourceKey(Operation.OpenDispute, d));
      HasPush(log, m, ResourceKey(WinDispute, d));
      HasPush(log, m, ResourceKey(LoseDispute, d));
    }
  }

  // --------------------------------------------------------------- attempts

  lemma {:induction false} AttemptStepKeepsKeys(w: World, step: Step)
    requires Core(w) && (step.AttemptSubmit? || step.AttemptDoubt? || step.AttemptDecline? || step.IntentConfirm?)
    ensures Core(Next(w, step))
  {
    var t := Next(w, step);
    assert t.log == w.log && t.refunds == w.refunds && t.payouts == w.payouts
           && t.disputes == w.disputes && t.tasks == w.tasks;
    forall a: nat ensures AttemptKeyed(t.log, t.attempts, a) {
      assert AttemptKeyed(w.log, w.attempts, a);
    }
  }

  lemma {:induction false} ApproveKeepsKeys(w: World, a: nat)
    requires Core(w)
    ensures Core(Next(w, AttemptApprove(a)))
  {
    var t := Approve(w, a);
    if t != w {
      var m := CaptureMove(w, a);
      RefundsUntouched(w.log, m, w.refunds);
      PayoutsUntouched(w.log, m, w.payouts);
      DisputesUntouched(w.log, m, w.disputes);
      DistinctPush(w.log, m);
      forall b: nat ensures AttemptKeyed(t.log, t.attempts, b) {
        assert AttemptKeyed(w.log, w.attempts, b);
        HasPush(w.log, m, AttemptKey(b));
      }
    }
  }

  // ---------------------------------------------------------------- refunds

  lemma {:induction false} RefundMarksKeepKeys(w: World, r: nat, to: RefundStatus)
    requires Core(w) && (to.Canceled? || to.Indeterminate?)
    ensures Core(MarkRefund(w, r, to))
  {
    var t := MarkRefund(w, r, to);
    forall q: nat ensures RefundKeyed(t.log, t.refunds, q) {
      assert RefundKeyed(w.log, w.refunds, q);
    }
  }

  lemma {:induction false} RefundBeginKeepsKeys(w: World, i: nat, asked: Option<int>)
    requires Core(w)
    ensures Core(Next(w, RefundBegin(i, asked)))
  {
    var t := BeginRefund(w, i, asked);
    forall q: nat ensures RefundKeyed(t.log, t.refunds, q) {
      assert RefundKeyed(w.log, w.refunds, q);
    }
  }

  lemma {:induction false} RefundPushKeyed(log: seq<Move>, refunds: seq<Refund>, m: Move, r: nat, op: Operation, to: RefundStatus)
    requires RefundsKeyed(log, refunds) && r < |refunds| && m.key == ResourceKey(op, r)
    requires CanTransition(RefundTransitions, refunds[r].status, to)
    requires || (op.RequestRefund? && to.Processing?)
             || (op.SettleRefund? && to.Succeeded?)
             || (op.CancelRefund? && to.Failed?)
    ensures RefundsKeyed(log + [m], refunds[r := refunds[r].(status := to)])
  {
    var after := refunds[r := refunds[r].(status := to)];
    forall q: nat ensures RefundKeyed(log + [m], after, q) {
      assert RefundKeyed(log, refunds, q);
      HasPush(log, m, ResourceKey(RequestRefund, q));
      HasPush(log, m, ResourceKey(Operation.SettleRefund, q));
      HasPush(log, m, ResourceKey(CancelRefund, q));
    }
  }

  lemma {:induction false} PostRefundKeepsKeys(w: World, r: nat, op: Operation, to: RefundStatus)
    requires Core(w)
    requires || (op.RequestRefund? && to.Processing?)
             || (op.SettleRefund? && to.Succeeded?)
             || (op.CancelRefund? && to.Failed?)
    ensures Core(PostRefund(w, r, op, to))
  {
    if RefundPosts(w, r, op, to) {
      var m := RefundMove(w, r, op);
      RefundPushKeyed(w.log, w.refunds, m, r, op, to);
      AttemptsUntouched(w.log, m, w.attempts);
      PayoutsUntouched(w.log, m, w.payouts);
      DisputesUntouched(w.log, m, w.disputes);
      DistinctPush(w.log, m);
    }
  }

  lemma {:induction false} CloseRefundKeepsKeys(w: World, r: nat)
    requires Core(w)
    ensures Core(Next(w, RefundSettle(r)))
  {
    PostRefundKeepsKeys(w, r, Operation.SettleRefund, RefundStatus.Succeeded);
    ClosePosts(w, r);
  }

  /** But for the intent, a settlement is its posting. */
  lemma {:induction false} ClosePosts(w: World, r: nat)
    ensures Next(w, RefundSettle(r)) == w
            || Next(w, RefundSettle(r)).(intents := w.intents)
               == PostRefund(w, r, Operation.SettleRefund, RefundStatus.Succeeded)
  {
  }

  // --------------------------------------------------------------- disputes

  lemma {:induction false} DisputeReviewKeepsKeys(w: World, d: nat)
    requires Core(w)
    ensures Core(Next(w, DisputeReview(d)))
  {
    var t := MarkDispute(w, d, UnderReview);
    forall e: nat ensures DisputeKeyed(t.log, t.disputes, e) {
      assert DisputeKeyed(w.log, w.disputes, e);
    }
  }

  lemma {:induction false} DisputePushKeyed(log: seq<Move>, disputes: seq<Dispute>, m: Move, d: nat, to: DisputeStatus)
    requires DisputesKeyed(log, disputes) && d < |disputes|
    requires CanTransition(DisputeTransitions, disputes[d].status, to)
    requires (to.Won? && m.key == ResourceKey(WinDispute, d)) || (to.Lost? && m.key == ResourceKey(LoseDispute, d))
    ensures DisputesKeyed(log + [m], disputes[d := disputes[d].(status := to)])
  {
    var after := disputes[d := disputes[d].(status := to)];
    forall e: nat ensures DisputeKeyed(log + [m], after, e) {
      assert DisputeKeyed(log, disputes, e);
      HasPush(log, m, ResourceKey(Operation.OpenDispute, e));
      HasPush(log, m, ResourceKey(WinDispute, e));
      HasPush(log, m, ResourceKey(LoseDispute, e));
    }
  }

  lemma {:induction false} DisputeOpenKeyed(log: seq<Move>, disputes: seq<Dispute>, m: Move, row: Dispute)
    requires DisputesKeyed(log, disputes) && row.status.Open?
    requires m.key == ResourceKey(Operation.OpenDispute, |disputes|)
    ensures DisputesKeyed(log + [m], disputes + [row])
  {
    var after := disputes + [row];
    forall e: nat ensures DisputeKeyed(log + [m], after, e) {
      assert DisputeKeyed(log, disputes, e);
      HasPush(log, m, ResourceKey(Operation.OpenDispute, e));
      HasPush(log, m, ResourceKey(WinDispute, e));
      HasPush(log, m, ResourceKey(LoseDispute, e));
    }
  }

  lemma {:induction false} PostDisputeKeepsKeys(w: World, d: nat, op: Operation, to: DisputeStatus)
    requires Core(w) && ((op.WinDispute? && to.Won?) || (op.LoseDispute? && to.Lost?))
    ensures Core(PostDispute(w, d, op, to))
  {
    if DisputePosts(w, d, op, to) {
      var m := DisputeMove(d, w.disputes[d], op);
      DisputePushKeyed(w.log, w.disputes, m, d, to);
      AttemptsUntouched(w.log, m, w.attempts);
      RefundsUntouched(w.log, m, w.refunds);
      PayoutsUntouched(w.log, m, w.payouts);
      DistinctPush(w.log, m);
    }
  }

  lemma {:induction false} FileDisputeKeepsKeys(w: World, merchant: string, currency: Currency, amount: int)
    requires Core(w)
    ensures Core(Next(w, DisputeOpen(merchant, currency, amount)))
  {
    var row := Dispute(merchant, currency, amount, Open);
    var m := DisputeMove(|w.disputes|, row, Operation.OpenDispute);
    if amount > 0 && Ask(w.log, m) == Posted {
      DisputeOpenKeyed(w.log, w.disputes, m, row);
      AttemptsUntouched(w.log, m, w.attempts);
      RefundsUntouched(w.log, m, w.refunds);
      PayoutsUntouched(w.log, m, w.payouts);
      DistinctPush(w.log, m);
    }
  }

  lemma {:induction false} DirectKeepsKeys(w: World, step: Step)
    requires Core(w) && step.DirectPost?
    ensures Core(Next(w, step))
  {
    var t := Next(w, step);
    if t != w {
      var m := Move(DirectKey(step.name), Legs(step.op), step.merchant, step.currency, step.amount);
      AttemptsUntouched(w.log, m, w.attempts);
      RefundsUntouched(w.log, m, w.refunds);
      PayoutsUntouched(w.log, m, w.payouts);
      DisputesUntouched(w.log, m, w.disputes);
      DistinctPush(w.log, m);
    }
  }

  // ---------------------------------------------------------------- payouts

  lemma {:induction false} MarkPayoutKeepsKeys(w: World, p: nat, to: PayoutStatus)
    requires Core(w) && (to.Failed? || to.Indeterminate?)
    ensures Core(MarkPayout(w, p, to))
  {
    var t := MarkPayout(w, p, to);
    forall q: nat ensures PayoutKeyed(t.log, t.payouts, q) {
      assert PayoutKeyed(w.log, w.payouts, q);
    }
    forall k | 0 <= k < |t.tasks| ensures TaskOk(t.payouts, t.tasks[k]) {
      assert TaskOk(w.payouts, w.tasks[k]);
    }
  }

  lemma {:induction false} PayoutPushKeyed(log: seq<Move>, payouts: seq<Payout>, m: Move, p: nat, op: Operation, to: PayoutStatus)
    requires PayoutsKeyed(log, payouts) && PayoutsOk(payouts) && p < |payouts| && m.key == ResourceKey(op, p)
    requires !Has(log, m.key) && CanTransition(PayoutTransitions, payouts[p].status, to)
    requires || (op.EmitPayout? && to.InTransit?)
             || (op.SettlePayout? && to.Paid?)
             || (op.FailPayout? && to.Failed? && !payouts[p].status.Requested?)
    ensures PayoutsKeyed(log + [m], payouts[p := payouts[p].(status := to, held := op.EmitPayout?)])
  {
    var after := payouts[p := payouts[p].(status := to, held := op.EmitPayout?)];
    assert PayoutOk(payouts[p]);
    forall q: nat ensures PayoutKeyed(log + [m], after, q) {
      assert PayoutKeyed(log, payouts, q);
      HasPush(log, m, ResourceKey(EmitPayout, q));
      HasPush(log, m, ResourceKey(SettlePayout, q));
      HasPush(log, m, ResourceKey(FailPayout, q));
    }
  }

  lemma {:induction false} PostPayoutKeepsKeys(w: World, p: nat, op: Operation, to: PayoutStatus)
    requires Core(w)
    requires || (op.EmitPayout? && to.InTransit?)
             || (op.SettlePayout? && to.Paid?)
             || (op.FailPayout? && to.Failed? && !StatusOf(w, p).Requested?)
    ensures Core(PostPayout(w, p, op, to))
  {
    if PayoutPosts(w, p, op, to) {
      var m, t := PayoutMove(w, p, op), PostPayout(w, p, op, to);
      PayoutPushKeyed(w.log, w.payouts, m, p, op, to);
      AttemptsUntouched(w.log, m, w.attempts);
      RefundsUntouched(w.log, m, w.refunds);
      DisputesUntouched(w.log, m, w.disputes);
      DistinctPush(w.log, m);
      forall k | 0 <= k < |t.tasks| ensures TaskOk(t.payouts, t.tasks[k]) {
        assert TaskOk(w.payouts, w.tasks[k]);
      }
    }
  }

  lemma {:induction false} BeginPayoutKeepsKeys(w: World, merchant: string, currency: Currency, amount: int)
    requires Core(w)
    ensures Core(Next(w, PayoutBegin(merchant, currency, amount)))
  {
    var t := BeginPayout(w, merchant, currency, amount);
    forall q: nat ensures PayoutKeyed(t.log, t.payouts, q) {
      assert PayoutKeyed(w.log, w.payouts, q);
    }
    forall k | 0 <= k < |t.tasks| ensures TaskOk(t.payouts, t.tasks[k]) {
      assert TaskOk(w.payouts, w.tasks[k]);
    }
  }

  lemma {:induction false} TaskKeepsCore(w: World, k: nat, t: Task)
    requires Core(w) && k < |w.tasks| && TaskOk(w.payouts, t)
    ensures Core(WithTask(w, k, t))
  {
  }

  /** An emission that is known already has left the requested status behind. */
  lemma {:induction false} EmittedLeftRequested(w: World, p: nat)
    requires Core(w) && p < |w.payouts| && Has(w.log, ResourceKey(EmitPayout, p))
    ensures !w.payouts[p].status.Requested?
  {
    assert PayoutKeyed(w.log, w.payouts, p) && PayoutOk(w.payouts[p]);
  }

  lemma {:induction false} EmittingKeepsCore(w: World, k: nat, reply: Reply)
    requires Core(w) && k < |w.tasks| && w.tasks[k].Emitting?
    ensures Core(AdvanceTask(w, k, reply))
  {
    var p := w.tasks[k].payout;
    assert TaskOk(w.payouts, w.tasks[k]);
    match Ask(w.log, PayoutMove(w, p, EmitPayout))
    case Posted =>
      if CanTransition(PayoutTransitions, w.payouts[p].status, PayoutStatus.InTransit) {
        PostPayoutKeepsKeys(w, p, EmitPayout, PayoutStatus.InTransit);
        TaskKeepsCore(PostPayout(w, p, EmitPayout, PayoutStatus.InTransit), k, Calling(p));
      } else {
        TaskKeepsCore(w, k, Ended(p));
      }
    case Replayed =>
      EmittedLeftRequested(w, p);
      TaskKeepsCore(w, k, Calling(p));
    case Insufficient => TaskKeepsCore(w, k, Broke(p));
    case Conflict => TaskKeepsCore(w, k, Ended(p));
  }

  lemma {:induction false} ReportingKeepsCore(w: World, k: nat, reply: Reply)
    requires Core(w) && k < |w.tasks| && (w.tasks[k].Reporting? || w.tasks[k].HookActing?)
    ensures Core(AdvanceTask(w, k, reply))
  {
    var p := w.tasks[k].payout;
    assert TaskOk(w.payouts, w.tasks[k]);
    PostPayoutKeepsKeys(w, p, SettlePayout, PayoutStatus.Paid);
    PostPayoutKeepsKeys(w, p, FailPayout, PayoutStatus.Failed);
    MarkPayoutKeepsKeys(w, p, PayoutStatus.Indeterminate);
    TaskKeepsCore(PostPayout(w, p, SettlePayout, PayoutStatus.Paid), k, Ended(p));
    TaskKeepsCore(PostPayout(w, p, FailPayout, PayoutStatus.Failed), k, Ended(p));
    TaskKeepsCore(MarkPayout(w, p, PayoutStatus.Indeterminate), k, Ended(p));
  }

  lemma {:induction false} AdvanceKeepsCore(w: World, k: nat, reply: Reply)
    requires Core(w) && k < |w.tasks|
    ensures Core(AdvanceTask(w, k, reply))
  {
    var p := w.tasks[k].payout;
    assert TaskOk(w.payouts, w.tasks[k]);
    match w.tasks[k]
    case Emitting(_) => EmittingKeepsCore(w, k, reply);
    case Reporting(_, _) => ReportingKeepsCore(w, k, reply);
    case HookActing(_, _) => ReportingKeepsCore(w, k, reply);
    case Broke(_) =>
      MarkPayoutKeepsKeys(w, p, PayoutStatus.Failed);
      TaskKeepsCore(MarkPayout(w, p, PayoutStatus.Failed), k, Ended(p));
    case _ =>
  }

  lemma {:induction false} TaskJoins(w: World, t: Task)
    requires Core(w) && TaskOk(w.payouts, t)
    ensures Core(w.(tasks := w.tasks + [t]))
  {
  }

  lemma {:induction false} TaskStepKeepsCore(w: World, step: Step)
    requires Core(w) && (step.PayoutStart? || step.PayoutHear? || step.TaskCrash?)
    ensures Core(Next(w, step))
  {
    match step
    case PayoutStart(p) => if p < |w.payouts| { TaskJoins(w, Reading(p)); }
    case PayoutHear(p, paid) => if p < |w.payouts| { TaskJoins(w, HookReading(p, paid)); }
    case TaskCrash(k) =>
      if k < |w.tasks| {
        assert TaskOk(w.payouts, w.tasks[k]);
        TaskKeepsCore(w, k, Ended(w.tasks[k].payout));
      }
    case _ =>
  }

  lemma {:induction false} SweepKeepsCore(w: World, p: nat)
    requires Core(w)
    ensures Core(Next(w, PayoutSweep(p)))
  {
    MarkPayoutKeepsKeys(w, p, PayoutStatus.Indeterminate);
  }

  lemma {:induction false} AnyAdvanceKeepsCore(w: World, k: nat, reply: Reply)
    requires Core(w)
    ensures Core(Next(w, TaskAdvance(k, reply)))
  {
    if k < |w.tasks| {
      AdvanceKeepsCore(w, k, reply);
    }
  }

  lemma {:induction false} ReserveKeepsCore(w: World, r: nat)
    requires Core(w)
    ensures Core(Next(w, RefundReserve(r)))
  {
    PostRefundKeepsKeys(w, r, RequestRefund, RefundStatus.Processing);
  }

  lemma {:induction false} RejectKeepsCore(w: World, r: nat)
    requires Core(w)
    ensures Core(Next(w, RefundReject(r)))
  {
    PostRefundKeepsKeys(w, r, CancelRefund, RefundStatus.Failed);
  }

  lemma {:induction false} RefundMarkKeepsCore(w: World, step: Step)
    requires Core(w) && (step.RefundDrop? || step.RefundDoubt?)
    ensures Core(Next(w, step))
  {
    RefundMarksKeepKeys(w, step.r, if step.RefundDrop? then RefundStatus.Canceled else RefundStatus.Indeterminate);
  }

  lemma {:induction false} DisputeEndKeepsCore(w: World, step: Step)
    requires Core(w) && (step.DisputeWin? || step.DisputeLose?)
    ensures Core(Next(w, step))
  {
    if step.DisputeWin? {
      PostDisputeKeepsKeys(w, step.d, WinDispute, Won);
    } else {
      PostDisputeKeepsKeys(w, step.d, LoseDispute, Lost);
    }
  }

  lemma {:induction false} IntentStepKeepsCore(w: World, step: Step)
    requires Core(w) && (step.IntentCreate? || step.IntentCancel?)
    ensures Core(Next(w, step))
  {
    var t := Next(w, step);
    assert t.(intents := w.intents) == w;
  }

  lemma {:induction false} NextKeepsCore(w: World, step: Step)
    requires Core(w)
    ensures Core(Next(w, step))
  {
    match step
    case IntentCreate(_, _, _) => IntentStepKeepsCore(w, step);
    case IntentCancel(_) => IntentStepKeepsCore(w, step);
    case IntentConfirm(_) => AttemptStepKeepsKeys(w, step);
    case AttemptSubmit(_) => AttemptStepKeepsKeys(w, step);
    case AttemptDoubt(_) => AttemptStepKeepsKeys(w, step);
    case AttemptDecline(_) => AttemptStepKeepsKeys(w, step);
    case AttemptApprove(a) => ApproveKeepsKeys(w, a);
    case RefundBegin(i, asked) => RefundBeginKeepsKeys(w, i, asked);
    case RefundReserve(r) => ReserveKeepsCore(w, r);
    case RefundDrop(_) => RefundMarkKeepsCore(w, step);
    case RefundSettle(r) => CloseRefundKeepsKeys(w, r);
    case RefundReject(r) => RejectKeepsCore(w, r);
    case RefundDoubt(_) => RefundMarkKeepsCore(w, step);
    case PayoutBegin(merchant, currency, amount) => BeginPayoutKeepsKeys(w, merchant, currency, amount);
    case PayoutStart(_) => TaskStepKeepsCore(w, step);
    case PayoutHear(_, _) => TaskStepKeepsCore(w, step);
    case TaskCrash(_) => TaskStepKeepsCore(w, step);
    case PayoutSweep(p) => SweepKeepsCore(w, p);
    case TaskAdvance(k, reply) => AnyAdvanceKeepsCore(w, k, reply);
    case DisputeOpen(merchant, currency, amount) => FileDisputeKeepsKeys(w, merchant, currency, amount);
    case DisputeReview(d) => DisputeReviewKeepsKeys(w, d);
    case DisputeWin(_) => DisputeEndKeepsCore(w, step);
    case DisputeLose(_) => DisputeEndKeepsCore(w, step);
    case DirectPost(_, _, _, _, _) => DirectKeepsKeys(w, step);
  }

  lemma {:induction false} RunKeepsCore(bps: int, steps: seq<Step>)
    ensures Core(Run(bps, steps))
  {
    if steps != [] {
      RunKeepsCore(bps, steps[..|steps| - 1]);
      NextKeepsCore(Run(bps, steps[..|steps| - 1]), steps[|steps| - 1]);
    }
  }

  // ------------------------------------------------------------ main results

  /**
   * Outcome exclusivity, on every run: each key is posted at most once, and for one
   * refund, payout or dispute at most one of the two closing postings is ever made,
   * which is the one its status names.
   */
  lemma {:induction false} OutcomesExclude(bps: int, steps: seq<Step>, n: nat)
    ensures var w := Run(bps, steps);
            && KeysDistinct(w.log)
            && !(Has(w.log, ResourceKey(Operation.SettleRefund, n)) && Has(w.log, ResourceKey(CancelRefund, n)))
            && !(Has(w.log, ResourceKey(SettlePayout, n)) && Has(w.log, ResourceKey(FailPayout, n)))
            && !(Has(w.log, ResourceKey(WinDispute, n)) && Has(w.log, ResourceKey(LoseDispute, n)))
            && RefundKeyed(w.log, w.refunds, n) && PayoutKeyed(w.log, w.payouts, n)
            && DisputeKeyed(w.log, w.disputes, n) && AttemptKeyed(w.log, w.attempts, n)
  {
    RunKeepsCore(bps, steps);
    var w := Run(bps, steps);
    assert RefundKeyed(w.log, w.refunds, n) && PayoutKeyed(w.log, w.payouts, n);
    assert DisputeKeyed(w.log, w.disputes, n) && AttemptKeyed(w.log, w.attempts, n);
  }

  /** A row that is final in w stands in t as it does in w. */
  ghost predicate FinalRowsStand(w: World, t: World) {
    && FinalAttemptsStand(w.attempts, t.attempts) && FinalRefundsStand(w.refunds, t.refunds)
    && FinalPayoutsStand(w.payouts, t.payouts) && FinalDisputesStand(w.disputes, t.disputes)
  }

  ghost predicate FinalAttemptsStand(s: seq<Attempt>, t: seq<Attempt>) {
    |s| <= |t| && forall a :: 0 <= a < |s| && Terminal(AttemptTransitions, s[a].status) ==> t[a] == s[a]
  }

  ghost predicate FinalRefundsStand(s: seq<Refund>, t: seq<Refund>) {
    |s| <= |t| && forall r :: 0 <= r < |s| && Terminal(RefundTransitions, s[r].status) ==> t[r] == s[r]
  }

  ghost predicate FinalPayoutsStand(s: seq<Payout>, t: seq<Payout>) {
    |s| <= |t| && forall p :: 0 <= p < |s| && Terminal(PayoutTransitions, s[p].status) ==> t[p] == s[p]
  }

  ghost predicate FinalDisputesStand(s: seq<Dispute>, t: seq<Dispute>) {
    |s| <= |t| && forall d :: 0 <= d < |s| && Terminal(DisputeTransitions, s[d].status) ==> t[d] == s[d]
  }

  lemma {:induction false} FinalAttempts(w: World, step: Step)
    ensures FinalAttemptsStand(w.attempts, Next(w, step).attempts)
  {
  }

  lemma {:induction false} FinalRefunds(w: World, step: Step)
    ensures FinalRefundsStand(w.refunds, Next(w, step).refunds)
  {
  }

  lemma {:induction false} FinalDisputes(w: World, step: Step)
    ensures FinalDisputesStand(w.disputes, Next(w, step).disputes)
  {
  }

  lemma {:induction false} PostingsKeepFinalPayouts(w: World, p: nat, op: Operation, to: PayoutStatus)
    ensures FinalPayoutsStand(w.payouts, PostPayout(w, p, op, to).payouts)
    ensures FinalPayoutsStand(w.payouts, MarkPayout(w, p, to).payouts)
  {
  }

  lemma {:induction false} AdvanceKeepsFinalPayouts(w: World, k: nat, reply: Reply)
    requires k < |w.tasks|
    ensures FinalPayoutsStand(w.payouts, AdvanceTask(w, k, reply).payouts)
  {
    var p := w.tasks[k].payout;
    match w.tasks[k]
    case Emitting(_) => PostingsKeepFinalPayouts(w, p, EmitPayout, PayoutStatus.InTransit);
    case Broke(_) => PostingsKeepFinalPayouts(w, p, FailPayout, PayoutStatus.Failed);
    case Reporting(_, r) =>
      PostingsKeepFinalPayouts(w, p, SettlePayout, PayoutStatus.Paid);
      PostingsKeepFinalPayouts(w, p, FailPayout, PayoutStatus.Failed);
      PostingsKeepFinalPayouts(w, p, FailPayout, PayoutStatus.Indeterminate);
    case HookActing(_, _) =>
      PostingsKeepFinalPayouts(w, p, SettlePayout, PayoutStatus.Paid);
      PostingsKeepFinalPayouts(w, p, FailPayout, PayoutStatus.Failed);
    case _ =>
  }

  lemma {:induction false} FinalPayouts(w: World, step: Step)
    ensures FinalPayoutsStand(w.payouts, Next(w, step).payouts)
  {
    if step.TaskAdvance? {
      if step.k < |w.tasks| {
        AdvanceKeepsFinalPayouts(w, step.k, step.reply);
      }
    } else {
      OtherStepsKeepFinalPayouts(w, step);
    }
  }

  lemma {:induction false} OtherStepsKeepFinalPayouts(w: World, step: Step)
    requires !step.TaskAdvance?
    ensures FinalPayoutsStand(w.payouts, Next(w, step).payouts)
  {
  }

  lemma {:induction false} NextKeepsFinalRows(w: World, step: Step)
    ensures FinalRowsStand(w, Next(w, step))
  {
    FinalAttempts(w, step);
    FinalRefunds(w, step);
    FinalPayouts(w, step);
    FinalDisputes(w, step);
  }

  /** A terminal row never changes again, whatever is executed, repeated or delivered late. */
  lemma {:induction false} FinalRowsStandForEver(w: World, more: seq<Step>)
    ensures FinalRowsStand(w, After(w, more))
  {
    if more != [] {
      var before := After(w, more[..|more| - 1]);
      FinalRowsStandForEver(w, more[..|more| - 1]);
      NextKeepsFinalRows(before, more[|more| - 1]);
    }
  }

  // ---------------------------------------------------------------- amounts

  ghost predicate AmountsPositive(w: World) {
    && (forall p :: 0 <= p < |w.payouts| ==> w.payouts[p].amount > 0)
    && (forall d :: 0 <= d < |w.disputes| ==> w.disputes[d].amount > 0)
  }

  lemma {:induction false} AdvanceKeepsAmounts(w: World, k: nat, reply: Reply)
    requires AmountsPositive(w) && k < |w.tasks|
    ensures AmountsPositive(AdvanceTask(w, k, reply)) && AdvanceTask(w, k, reply).bps == w.bps
  {
    var p := w.tasks[k].payout;
    match w.tasks[k]
    case Emitting(_) => PostingKeepsAmounts(w, p, EmitPayout, PayoutStatus.InTransit);
    case Broke(_) => PostingKeepsAmounts(w, p, FailPayout, PayoutStatus.Failed);
    case Reporting(_, r) =>
      if r.Accepted? {
        PostingKeepsAmounts(w, p, SettlePayout, PayoutStatus.Paid);
      } else if r.Unclear? {
        PostingKeepsAmounts(w, p, FailPayout, PayoutStatus.Indeterminate);
      } else {
        PostingKeepsAmounts(w, p, FailPayout, PayoutStatus.Failed);
      }
    case HookActing(_, paid) =>
      if paid {
        PostingKeepsAmounts(w, p, SettlePayout, PayoutStatus.Paid);
      } else {
        PostingKeepsAmounts(w, p, FailPayout, PayoutStatus.Failed);
      }
    case _ =>
  }

  lemma {:induction false} PostingKeepsAmounts(w: World, p: nat, op: Operation, to: PayoutStatus)
    requires AmountsPositive(w)
    ensures AmountsPositive(PostPayout(w, p, op, to)) && AmountsPositive(MarkPayout(w, p, to))
    ensures PostPayout(w, p, op, to).tasks == w.tasks && MarkPayout(w, p, to).tasks == w.tasks
    ensures PostPayout(w, p, op, to).bps == w.bps && MarkPayout(w, p, to).bps == w.bps
  {
  }

  lemma {:induction false} OthersKeepAmounts(w: World, step: Step)
    requires AmountsPositive(w) && !step.TaskAdvance?
    ensures AmountsPositive(Next(w, step)) && Next(w, step).bps == w.bps
  {
    OthersKeepPayoutAmounts(w, step);
    OthersKeepDisputeAmounts(w, step);
  }

  lemma {:induction false} OthersKeepPayoutAmounts(w: World, step: Step)
    requires AmountsPositive(w) && !step.TaskAdvance?
    ensures var t := Next(w, step); forall p :: 0 <= p < |t.payouts| ==> t.payouts[p].amount > 0
    ensures Next(w, step).bps == w.bps
  {
  }

  lemma {:induction false} OthersKeepDisputeAmounts(w: World, step: Step)
    requires AmountsPositive(w) && !step.TaskAdvance?
    ensures var t := Next(w, step); forall d :: 0 <= d < |t.disputes| ==> t.disputes[d].amount > 0
  {
  }

  lemma {:induction false} NextKeepsAmounts(w: World, step: Step)
    requires AmountsPositive(w)
    ensures AmountsPositive(Next(w, step)) && Next(w, step).bps == w.bps
  {
    if !step.TaskAdvance? {
      OthersKeepAmounts(w, step);
    } else if step.k < |w.tasks| {
      NextIsAdvance(w, step.k, step.reply);
      AdvanceKeepsAmounts(w, step.k, step.reply);
    }
  }

  /** Payouts and disputes are of positive amounts, and the fee rate is that of the platform. */
  lemma {:induction false} RunKeepsAmounts(bps: int, steps: seq<Step>)
    ensures AmountsPositive(Run(bps, steps)) && Run(bps, steps).bps == bps
  {
    if steps != [] {
      var before, last := Run(bps, steps[..|steps| - 1]), steps[|steps| - 1];
      RunKeepsAmounts(bps, steps[..|steps| - 1]);
      NextKeepsAmounts(before, last);
    }
  }
}
