/**
 * On every run every balance is a function of the statuses of the rows: what each
 * attempt, refund, payout and dispute has at stake in an account, plus the direct
 * postings (releases, reserves, provider settlements).
 */
module EngineBalances {
  import opened Prelude
  import opened Money
  import opened Chart
  import opened Posting
  import opened Books
  import opened Fsm
  import opened Engine
  import opened EngineOutcomes

  // ------------------------------------------------- what a row has at stake

  predicate On(x: Acct, code: Code, merchant: string, currency: Currency) {
    x.code == code && x.currency == currency && (code.Scope() == MerchantScope ==> x.merchant == merchant)
  }

  function AttemptStake(bps: int, x: Acct): Attempt -> int {
    (a: Attempt) =>
      if !a.status.Succeeded? then 0
      else if On(x, ProviderClearing, a.merchant, a.currency) then a.amount
      else if On(x, MerchantPending, a.merchant, a.currency) then a.amount - FeeOn(a.amount, bps)
      else if On(x, PlatformFees, a.merchant, a.currency) then FeeOn(a.amount, bps)
      else 0
  }

  function RefundStake(x: Acct): Refund -> int {
    (r: Refund) =>
      if On(x, MerchantAvailable, r.merchant, r.currency)
         && (r.status.Processing? || r.status.Indeterminate? || r.status.Succeeded?) then -r.amount
      else if On(x, RefundLiability, r.merchant, r.currency)
         && (r.status.Processing? || r.status.Indeterminate?) then r.amount
      else if On(x, ProviderClearing, r.merchant, r.currency) && r.status.Succeeded? then -r.amount
      else 0
  }

  function PayoutStake(x: Acct): Payout -> int {
    (p: Payout) =>
      if On(x, MerchantAvailable, p.merchant, p.currency) && (p.held || p.status.Paid?) then -p.amount
      else if On(x, PayoutInTransit, p.merchant, p.currency) && p.held then p.amount
      else if On(x, PlatformCash, p.merchant, p.currency) && p.status.Paid? then -p.amount
      else 0
  }

  function DisputeStake(x: Acct): Dispute -> int {
    (d: Dispute) =>
      if On(x, MerchantAvailable, d.merchant, d.currency) && !d.status.Won? then -d.amount
      else if On(x, DisputeReserve, d.merchant, d.currency)
         && (d.status.Open? || d.status.UnderReview?) then d.amount
      else if On(x, ProviderClearing, d.merchant, d.currency) && d.status.Lost? then -d.amount
      else 0
  }

  function DirectOn(x: Acct): Move -> int {
    (m: Move) => if m.key.DirectKey? then Effect(m, x) else 0
  }

  function Stakes(w: World, x: Acct): int {
    Sum(w.attempts, AttemptStake(w.bps, x)) + Sum(w.refunds, RefundStake(x)) + Sum(w.payouts, PayoutStake(x))
    + Sum(w.disputes, DisputeStake(x)) + Sum(w.log, DirectOn(x))
  }

  ghost predicate Balanced(w: World, x: Acct) {
    Bal(w.log, x) == Stakes(w, x)
  }

  // ---------------------------------------------- one posting, one row at a time

  lemma {:induction false} PushMove(log: seq<Move>, m: Move, x: Acct)
    ensures Bal(log + [m], x) == Bal(log, x) + Effect(m, x)
    ensures Sum(log + [m], DirectOn(x)) == Sum(log, DirectOn(x)) + DirectOn(x)(m)
  {
    BalPush(log, m, x);
    SumPush(log, m, DirectOn(x));
  }

  lemma {:induction false} RefundMarkNeutral(r: Refund, to: RefundStatus, x: Acct)
    requires CanTransition(RefundTransitions, r.status, to) && (to.Canceled? || to.Indeterminate?)
    ensures RefundStake(x)(r.(status := to)) == RefundStake(x)(r)
  {
  }

  lemma {:induction false} PayoutMarkNeutral(p: Payout, to: PayoutStatus, x: Acct)
    requires CanTransition(PayoutTransitions, p.status, to) && (to.Failed? || to.Indeterminate?)
    ensures PayoutStake(x)(p.(status := to)) == PayoutStake(x)(p)
  {
  }

  lemma {:induction false} ReviewNeutral(d: Dispute, x: Acct)
    requires d.status.Open?
    ensures DisputeStake(x)(d.(status := UnderReview)) == DisputeStake(x)(d)
  {
  }

  lemma {:induction false} AttemptMarkNeutral(bps: int, a: Attempt, to: AttemptStatus, x: Acct)
    requires !a.status.Succeeded? && !to.Succeeded?
    ensures AttemptStake(bps, x)(a.(status := to)) == AttemptStake(bps, x)(a)
  {
  }

  lemma {:induction false} MarkRefundBalanced(w: World, r: nat, to: RefundStatus, x: Acct)
    requires Balanced(w, x) && (to.Canceled? || to.Indeterminate?)
    ensures Balanced(MarkRefund(w, r, to), x)
  {
    if r < |w.refunds| && CanTransition(RefundTransitions, w.refunds[r].status, to) {
      SumSet(w.refunds, r, w.refunds[r].(status := to), RefundStake(x));
      RefundMarkNeutral(w.refunds[r], to, x);
    }
  }

  /** The effect of a refund's posting is the change in what the refund has at stake. */
  lemma {:induction false} RefundEffect(w: World, r: nat, op: Operation, to: RefundStatus, x: Acct)
    requires r < |w.refunds| && CanTransition(RefundTransitions, w.refunds[r].status, to)
    requires || (op.RequestRefund? && to.Processing?)
             || (op.SettleRefund? && to.Succeeded?)
             || (op.CancelRefund? && to.Failed?)
    ensures Effect(RefundMove(w, r, op), x)
         == RefundStake(x)(w.refunds[r].(status := to)) - RefundStake(x)(w.refunds[r])
  {
  }

  lemma {:induction false} PostRefundBalanced(w: World, r: nat, op: Operation, to: RefundStatus, x: Acct)
    requires Balanced(w, x)
    requires || (op.RequestRefund? && to.Processing?)
             || (op.SettleRefund? && to.Succeeded?)
             || (op.CancelRefund? && to.Failed?)
    ensures Balanced(PostRefund(w, r, op, to), x)
  {
    if RefundPosts(w, r, op, to) {
      PushMove(w.log, RefundMove(w, r, op), x);
      SumSet(w.refunds, r, w.refunds[r].(status := to), RefundStake(x));
      RefundEffect(w, r, op, to, x);
    }
  }

  lemma {:induction false} CloseRefundBalanced(w: World, r: nat, x: Acct)
    requires Balanced(w, x)
    ensures Balanced(Next(w, RefundSettle(r)), x)
  {
    var t, posted := Next(w, RefundSettle(r)), PostRefund(w, r, Operation.SettleRefund, RefundStatus.Succeeded);
    CloseIsPosting(w, r);
    if t != w {
      PostRefundBalanced(w, r, Operation.SettleRefund, RefundStatus.Succeeded, x);
      IntentsHaveNoStake(posted, t, x);
    }
  }

  lemma {:induction false} CloseIsPosting(w: World, r: nat)
    ensures var t, posted := Next(w, RefundSettle(r)), PostRefund(w, r, Operation.SettleRefund, RefundStatus.Succeeded);
            t == w || t.(intents := posted.intents) == posted
  {
  }

  lemma {:induction false} IntentsHaveNoStake(w: World, t: World, x: Acct)
    requires Balanced(w, x) && t.(intents := w.intents) == w
    ensures Balanced(t, x)
  {
  }

  lemma {:induction false} BeginRefundBalanced(w: World, i: nat, asked: Option<int>, x: Acct)
    requires Balanced(w, x)
    ensures Balanced(Next(w, RefundBegin(i, asked)), x)
  {
    var t := BeginRefund(w, i, asked);
    if t != w {
      SumPush(w.refunds, t.refunds[|w.refunds|], RefundStake(x));
    }
  }

  lemma {:induction false} MarkPayoutBalanced(w: World, p: nat, to: PayoutStatus, x: Acct)
    requires Balanced(w, x) && (to.Failed? || to.Indeterminate?)
    ensures Balanced(MarkPayout(w, p, to), x)
  {
    if p < |w.payouts| && CanTransition(PayoutTransitions, w.payouts[p].status, to) {
      SumSet(w.payouts, p, w.payouts[p].(status := to), PayoutStake(x));
      PayoutMarkNeutral(w.payouts[p], to, x);
    }
  }

  lemma {:induction false} PayoutEffect(w: World, p: nat, op: Operation, to: PayoutStatus, x: Acct)
    requires p < |w.payouts| && PayoutOk(w.payouts[p]) && CanTransition(PayoutTransitions, w.payouts[p].status, to)
    requires || (op.EmitPayout? && to.InTransit?)
             || (op.SettlePayout? && to.Paid?)
             || (op.FailPayout? && to.Failed? && !w.payouts[p].status.Requested?)
    ensures Effect(PayoutMove(w, p, op), x)
         == PayoutStake(x)(w.payouts[p].(status := to, held := op.EmitPayout?)) - PayoutStake(x)(w.payouts[p])
  {
  }

  lemma {:induction false} PostPayoutBalanced(w: World, p: nat, op: Operation, to: PayoutStatus, x: Acct)
    requires Balanced(w, x) && PayoutsOk(w.payouts)
    requires || (op.EmitPayout? && to.InTransit?)
             || (op.SettlePayout? && to.Paid?)
             || (op.FailPayout? && to.Failed? && !StatusOf(w, p).Requested?)
    ensures Balanced(PostPayout(w, p, op, to), x)
  {
    if PayoutPosts(w, p, op, to) {
      assert PayoutOk(w.payouts[p]);
      PushMove(w.log, PayoutMove(w, p, op), x);
      SumSet(w.payouts, p, w.payouts[p].(status := to, held := op.EmitPayout?), PayoutStake(x));
      PayoutEffect(w, p, op, to, x);
    }
  }

  lemma {:induction false} BeginPayoutBalanced(w: World, merchant: string, currency: Currency, amount: int, x: Acct)
    requires Balanced(w, x)
    ensures Balanced(Next(w, PayoutBegin(merchant, currency, amount)), x)
  {
    SumPush(w.payouts, Payout(merchant, currency, amount, PayoutStatus.Requested, false), PayoutStake(x));
  }

  lemma {:induction false} DisputeEffect(d: nat, row: Dispute, op: Operation, to: DisputeStatus, x: Acct)
    requires CanTransition(DisputeTransitions, row.status, to)
    requires (op.WinDispute? && to.Won?) || (op.LoseDispute? && to.Lost?)
    ensures Effect(DisputeMove(d, row, op), x) == DisputeStake(x)(row.(status := to)) - DisputeStake(x)(row)
  {
  }

  lemma {:induction false} PostDisputeBalanced(w: World, d: nat, op: Operation, to: DisputeStatus, x: Acct)
    requires Balanced(w, x) && ((op.WinDispute? && to.Won?) || (op.LoseDispute? && to.Lost?))
    ensures Balanced(PostDispute(w, d, op, to), x)
  {
    if DisputePosts(w, d, op, to) {
      PushMove(w.log, DisputeMove(d, w.disputes[d], op), x);
      SumSet(w.disputes, d, w.disputes[d].(status := to), DisputeStake(x));
      DisputeEffect(d, w.disputes[d], op, to, x);
    }
  }

  lemma {:induction false} FileDisputeBalanced(w: World, merchant: string, currency: Currency, amount: int, x: Acct)
    requires Balanced(w, x)
    ensures Balanced(Next(w, DisputeOpen(merchant, currency, amount)), x)
  {
    var row := Dispute(merchant, currency, amount, Open);
    var t := Next(w, DisputeOpen(merchant, currency, amount));
    OpeningAddsRow(w, merchant, currency, amount);
    if t != w {
      HeldBalanced(w, t, row, DisputeMove(|w.disputes|, row, Operation.OpenDispute), x);
    }
  }

  lemma {:induction false} HeldBalanced(w: World, t: World, row: Dispute, m: Move, x: Acct)
    requires Balanced(w, x) && row.status.Open? && m == DisputeMove(|w.disputes|, row, Operation.OpenDispute)
    requires t == w.(log := w.log + [m], disputes := w.disputes + [row])
    ensures Balanced(t, x)
  {
    PushMove(w.log, m, x);
    SumPush(w.disputes, row, DisputeStake(x));
    HoldEffect(|w.disputes|, row, x);
  }

  lemma {:induction false} OpeningAddsRow(w: World, merchant: string, currency: Currency, amount: int)
    ensures var row := Dispute(merchant, currency, amount, Open);
            var m := DisputeMove(|w.disputes|, row, Operation.OpenDispute);
            var t := Next(w, DisputeOpen(merchant, currency, amount));
            t == w || t == w.(log := w.log + [m], disputes := w.disputes + [row])
  {
  }

  lemma {:induction false} HoldEffect(d: nat, row: Dispute, x: Acct)
    requires row.status.Open?
    ensures Effect(DisputeMove(d, row, Operation.OpenDispute), x) == DisputeStake(x)(row)
  {
  }

  lemma {:induction false} ReviewBalanced(w: World, d: nat, x: Acct)
    requires Balanced(w, x)
    ensures Balanced(Next(w, DisputeReview(d)), x)
  {
    if d < |w.disputes| && w.disputes[d].status.Open? {
      SumSet(w.disputes, d, w.disputes[d].(status := UnderReview), DisputeStake(x));
      ReviewNeutral(w.disputes[d], x);
    } else {
      assert Next(w, DisputeReview(d)) == w;
    }
  }

  lemma {:induction false} AttemptBalanced(w: World, step: Step, x: Acct)
    requires Balanced(w, x) && (step.AttemptSubmit? || step.AttemptDoubt? || step.AttemptDecline?)
    ensures Balanced(Next(w, step), x)
  {
    var t := Next(w, step);
    if t != w {
      SumSet(w.attempts, step.a, t.attempts[step.a], AttemptStake(w.bps, x));
      AttemptMarkNeutral(w.bps, w.attempts[step.a], t.attempts[step.a].status, x);
    }
  }

  lemma {:induction false} ConfirmBalanced(w: World, i: nat, x: Acct)
    requires Balanced(w, x)
    ensures Balanced(Next(w, IntentConfirm(i)), x)
  {
    var t := Confirm(w, i);
    if t != w {
      SumPush(w.attempts, t.attempts[|w.attempts|], AttemptStake(w.bps, x));
    }
  }

  lemma {:induction false} CaptureEffect(w: World, a: nat, x: Acct)
    requires a < |w.attempts|
    ensures Effect(CaptureMove(w, a), x)
         == AttemptStake(w.bps, x)(w.attempts[a].(status := AttemptStatus.Succeeded))
  {
  }

  lemma {:induction false} ApproveBalanced(w: World, a: nat, x: Acct)
    requires Balanced(w, x)
    ensures Balanced(Next(w, AttemptApprove(a)), x)
  {
    ApprovalIsApprove(w, a);
    if Approve(w, a) != w {
      ApproveChanges(w, a);
      CapturedBalanced(w, Approve(w, a), a, x);
    }
  }

  lemma {:induction false} ApprovalIsApprove(w: World, a: nat)
    ensures Next(w, AttemptApprove(a)) == Approve(w, a)
  {
  }

  lemma {:induction false} CapturedBalanced(w: World, t: World, a: nat, x: Acct)
    requires Balanced(w, x) && a < |w.attempts| && !w.attempts[a].status.Succeeded?
    requires t.log == w.log + [CaptureMove(w, a)] && t.bps == w.bps
    requires t.attempts == w.attempts[a := w.attempts[a].(status := AttemptStatus.Succeeded)]
    requires t.refunds == w.refunds && t.payouts == w.payouts && t.disputes == w.disputes
    ensures Balanced(t, x)
  {
    PushMove(w.log, CaptureMove(w, a), x);
    SumSet(w.attempts, a, w.attempts[a].(status := AttemptStatus.Succeeded), AttemptStake(w.bps, x));
    CaptureEffect(w, a, x);
  }

  lemma {:induction false} ApproveChanges(w: World, a: nat)
    requires Approve(w, a) != w
    ensures a < |w.attempts| && !w.attempts[a].status.Succeeded?
    ensures var t := Approve(w, a);
            && t.log == w.log + [CaptureMove(w, a)] && t.bps == w.bps
            && t.attempts == w.attempts[a := w.attempts[a].(status := AttemptStatus.Succeeded)]
            && t.refunds == w.refunds && t.payouts == w.payouts && t.disputes == w.disputes
  {
  }

  lemma {:induction false} DirectBalanced(w: World, step: Step, x: Acct)
    requires Balanced(w, x) && step.DirectPost?
    ensures Balanced(Next(w, step), x)
  {
    PushMove(w.log, Move(DirectKey(step.name), Legs(step.op), step.merchant, step.currency, step.amount), x);
  }

  /** Tasks have nothing at stake. */
  lemma {:induction false} TaskBalanced(w: World, k: nat, t: Task, x: Acct)
    requires Balanced(w, x) && k < |w.tasks|
    ensures Balanced(WithTask(w, k, t), x)
  {
    TasksHaveNoStake(w, WithTask(w, k, t), x);
  }

  lemma {:induction false} PaidBalanced(w: World, k: nat, x: Acct)
    requires Core(w) && Balanced(w, x) && k < |w.tasks|
    ensures var p := w.tasks[k].payout;
            Balanced(WithTask(PostPayout(w, p, SettlePayout, PayoutStatus.Paid), k, Ended(p)), x)
  {
    var p := w.tasks[k].payout;
    PostPayoutBalanced(w, p, SettlePayout, PayoutStatus.Paid, x);
    TaskBalanced(PostPayout(w, p, SettlePayout, PayoutStatus.Paid), k, Ended(p), x);
  }

  lemma {:induction false} ReturnedBalanced(w: World, k: nat, x: Acct)
    requires Core(w) && Balanced(w, x) && k < |w.tasks| && (w.tasks[k].Reporting? || w.tasks[k].HookActing?)
    ensures var p := w.tasks[k].payout;
            Balanced(WithTask(PostPayout(w, p, FailPayout, PayoutStatus.Failed), k, Ended(p)), x)
  {
    var p := w.tasks[k].payout;
    assert TaskOk(w.payouts, w.tasks[k]);
    PostPayoutBalanced(w, p, FailPayout, PayoutStatus.Failed, x);
    TaskBalanced(PostPayout(w, p, FailPayout, PayoutStatus.Failed), k, Ended(p), x);
  }

  lemma {:induction false} MarkedBalanced(w: World, k: nat, to: PayoutStatus, x: Acct)
    requires Balanced(w, x) && k < |w.tasks| && (to.Failed? || to.Indeterminate?)
    ensures var p := w.tasks[k].payout; Balanced(WithTask(MarkPayout(w, p, to), k, Ended(p)), x)
  {
    var p := w.tasks[k].payout;
    MarkPayoutBalanced(w, p, to, x);
    TaskBalanced(MarkPayout(w, p, to), k, Ended(p), x);
  }

  lemma {:induction false} EmittingBalanced(w: World, k: nat, reply: Reply, x: Acct)
    requires Core(w) && Balanced(w, x) && k < |w.tasks| && w.tasks[k].Emitting?
    ensures Balanced(AdvanceTask(w, k, reply), x)
  {
    var p := w.tasks[k].payout;
    PostPayoutBalanced(w, p, EmitPayout, PayoutStatus.InTransit, x);
    var t := PostPayout(w, p, EmitPayout, PayoutStatus.InTransit);
    TaskBalanced(t, k, Calling(p), x);
    TaskBalanced(w, k, Calling(p), x);
    TaskBalanced(w, k, Broke(p), x);
    TaskBalanced(w, k, Ended(p), x);
  }

  lemma {:induction false} AdvanceBalanced(w: World, k: nat, reply: Reply, x: Acct)
    requires Core(w) && Balanced(w, x) && k < |w.tasks|
    ensures Balanced(AdvanceTask(w, k, reply), x)
  {
    match w.tasks[k]
    case Emitting(_) => EmittingBalanced(w, k, reply, x);
    case Broke(_) => MarkedBalanced(w, k, PayoutStatus.Failed, x);
    case Reporting(p, r) =>
      if r.Accepted? {
        PaidBalanced(w, k, x);
      } else if r.Unclear? {
        MarkedBalanced(w, k, PayoutStatus.Indeterminate, x);
      } else {
        ReturnedBalanced(w, k, x);
      }
    case HookActing(p, paid) =>
      if paid {
        PaidBalanced(w, k, x);
      } else {
        ReturnedBalanced(w, k, x);
      }
    case _ => QuietBalanced(w, k, reply, x);
  }

  lemma {:induction false} QuietBalanced(w: World, k: nat, reply: Reply, x: Acct)
    requires Balanced(w, x) && k < |w.tasks|
    requires w.tasks[k].Reading? || w.tasks[k].Calling? || w.tasks[k].HookReading? || w.tasks[k].Ended?
    ensures Balanced(AdvanceTask(w, k, reply), x)
  {
    QuietMovesTask(w, k, reply);
    TasksHaveNoStake(w, AdvanceTask(w, k, reply), x);
  }

  lemma {:induction false} QuietMovesTask(w: World, k: nat, reply: Reply)
    requires k < |w.tasks|
    requires w.tasks[k].Reading? || w.tasks[k].Calling? || w.tasks[k].HookReading? || w.tasks[k].Ended?
    ensures AdvanceTask(w, k, reply).(tasks := w.tasks) == w
  {
  }

  lemma {:induction false} AnyAdvanceBalanced(w: World, k: nat, reply: Reply, x: Acct)
    requires Core(w) && Balanced(w, x)
    ensures Balanced(Next(w, TaskAdvance(k, reply)), x)
  {
    var t := Next(w, TaskAdvance(k, reply));
    if k < |w.tasks| {
      NextIsAdvance(w, k, reply);
      AdvanceBalanced(w, k, reply, x);
    } else {
      assert t == w;
    }
    assert Balanced(t, x);
  }

  lemma {:induction false} SweepBalanced(w: World, p: nat, x: Acct)
    requires Balanced(w, x)
    ensures Balanced(Next(w, PayoutSweep(p)), x)
  {
    MarkPayoutBalanced(w, p, PayoutStatus.Indeterminate, x);
  }

  lemma {:induction false} TaskStepBalanced(w: World, step: Step, x: Acct)
    requires Balanced(w, x) && (step.PayoutStart? || step.PayoutHear? || step.TaskCrash?)
    ensures Balanced(Next(w, step), x)
  {
    TasksHaveNoStake(w, Next(w, step), x);
  }

  lemma {:induction false} TasksHaveNoStake(w: World, t: World, x: Acct)
    requires Balanced(w, x) && t.(tasks := w.tasks) == w
    ensures Balanced(t, x)
  {
  }

  lemma {:induction false} ReserveBalanced(w: World, r: nat, x: Acct)
    requires Balanced(w, x)
    ensures Balanced(Next(w, RefundReserve(r)), x)
  {
    ReserveIsPosting(w, r);
    PostRefundBalanced(w, r, RequestRefund, RefundStatus.Processing, x);
  }

  lemma {:induction false} RejectBalanced(w: World, r: nat, x: Acct)
    requires Balanced(w, x)
    ensures Balanced(Next(w, RefundReject(r)), x)
  {
    RejectIsPosting(w, r);
    PostRefundBalanced(w, r, CancelRefund, RefundStatus.Failed, x);
  }

  lemma {:induction false} RefundMarkBalanced(w: World, step: Step, x: Acct)
    requires Balanced(w, x) && (step.RefundDrop? || step.RefundDoubt?)
    ensures Balanced(Next(w, step), x)
  {
    if step.RefundDrop? {
      DropIsMark(w, step.r);
      MarkRefundBalanced(w, step.r, RefundStatus.Canceled, x);
    } else {
      DoubtIsMark(w, step.r);
      MarkRefundBalanced(w, step.r, RefundStatus.Indeterminate, x);
    }
  }

  lemma {:induction false} IntentStepBalanced(w: World, step: Step, x: Acct)
    requires Balanced(w, x) && (step.IntentCreate? || step.IntentCancel?)
    ensures Balanced(Next(w, step), x)
  {
    var t := Next(w, step);
    assert t.(intents := w.intents) == w;
  }

  lemma {:induction false} NextKeepsBalanced(w: World, step: Step, x: Acct)
    requires Core(w) && Balanced(w, x)
    ensures Balanced(Next(w, step), x)
  {
    match step
    case IntentCreate(_, _, _) => IntentStepBalanced(w, step, x);
    case IntentCancel(_) => IntentStepBalanced(w, step, x);
    case IntentConfirm(i) => ConfirmBalanced(w, i, x);
    case AttemptSubmit(_) => AttemptBalanced(w, step, x);
    case AttemptDoubt(_) => AttemptBalanced(w, step, x);
    case AttemptDecline(_) => AttemptBalanced(w, step, x);
    case AttemptApprove(a) => ApproveBalanced(w, a, x);
    case RefundBegin(i, asked) => BeginRefundBalanced(w, i, asked, x);
    case RefundReserve(r) => ReserveBalanced(w, r, x);
    case RefundDrop(_) => RefundMarkBalanced(w, step, x);
    case RefundSettle(r) => CloseRefundBalanced(w, r, x);
    case RefundReject(r) => RejectBalanced(w, r, x);
    case RefundDoubt(_) => RefundMarkBalanced(w, step, x);
    case PayoutBegin(merchant, currency, amount) => BeginPayoutBalanced(w, merchant, currency, amount, x);
    case PayoutStart(_) => TaskStepBalanced(w, step, x);
    case PayoutHear(_, _) => TaskStepBalanced(w, step, x);
    case PayoutSweep(p) => SweepBalanced(w, p, x);
    case TaskAdvance(k, reply) => AnyAdvanceBalanced(w, k, reply, x);
    case TaskCrash(_) => TaskStepBalanced(w, step, x);
    case DisputeOpen(merchant, currency, amount) => FileDisputeBalanced(w, merchant, currency, amount, x);
    case DisputeReview(d) => ReviewBalanced(w, d, x);
    case DisputeWin(d) => WinBalanced(w, d, x);
    case DisputeLose(d) => LoseBalanced(w, d, x);
    case DirectPost(_, _, _, _, _) => DirectBalanced(w, step, x);
  }

  lemma {:induction false} WinBalanced(w: World, d: nat, x: Acct)
    requires Balanced(w, x)
    ensures Balanced(Next(w, DisputeWin(d)), x)
  {
    WinIsPosting(w, d);
    PostDisputeBalanced(w, d, WinDispute, Won, x);
  }

  lemma {:induction false} WinIsPosting(w: World, d: nat)
    ensures Next(w, DisputeWin(d)) == PostDispute(w, d, WinDispute, Won)
  {
  }

  lemma {:induction false} LoseIsPosting(w: World, d: nat)
    ensures Next(w, DisputeLose(d)) == PostDispute(w, d, LoseDispute, Lost)
  {
  }

  lemma {:induction false} ReserveIsPosting(w: World, r: nat)
    ensures Next(w, RefundReserve(r)) == PostRefund(w, r, RequestRefund, RefundStatus.Processing)
  {
  }

  lemma {:induction false} RejectIsPosting(w: World, r: nat)
    ensures Next(w, RefundReject(r)) == PostRefund(w, r, CancelRefund, RefundStatus.Failed)
  {
  }

  lemma {:induction false} DropIsMark(w: World, r: nat)
    ensures Next(w, RefundDrop(r)) == MarkRefund(w, r, RefundStatus.Canceled)
  {
  }

  lemma {:induction false} DoubtIsMark(w: World, r: nat)
    ensures Next(w, RefundDoubt(r)) == MarkRefund(w, r, RefundStatus.Indeterminate)
  {
  }

  lemma {:induction false} LoseBalanced(w: World, d: nat, x: Acct)
    requires Balanced(w, x)
    ensures Balanced(Next(w, DisputeLose(d)), x)
  {
    LoseIsPosting(w, d);
    PostDisputeBalanced(w, d, LoseDispute, Lost, x);
  }

  /** On every run, every account of every merchant and currency holds the stakes of the rows. */
  lemma {:induction false} BalancesFollowStatuses(bps: int, steps: seq<Step>, x: Acct)
    ensures Balanced(Run(bps, steps), x)
  {
    if steps != [] {
      var before := Run(bps, steps[..|steps| - 1]);
      BalancesFollowStatuses(bps, steps[..|steps| - 1], x);
      RunKeepsCore(bps, steps[..|steps| - 1]);
      NextKeepsBalanced(before, steps[|steps| - 1], x);
    }
  }

  // ------------------------------------------------------------ main results

  /** A failed payout whose money was never taken out of transit. */
  predicate Stranded(p: Payout) {
    p.status.Failed? && p.held
  }

  function RefundsTaken(merchant: string, currency: Currency): Refund -> int {
    (r: Refund) =>
      if r.merchant == merchant && r.currency == currency
         && (r.status.Processing? || r.status.Indeterminate? || r.status.Succeeded?) then r.amount
      else 0
  }

  function PayoutsTaken(merchant: string, currency: Currency): Payout -> int {
    (p: Payout) =>
      if p.merchant == merchant && p.currency == currency
         && (p.status.InTransit? || p.status.Indeterminate? || p.status.Paid? || Stranded(p)) then p.amount
      else 0
  }

  function DisputesTaken(merchant: string, currency: Currency): Dispute -> int {
    (d: Dispute) =>
      if d.merchant == merchant && d.currency == currency
         && (d.status.Open? || d.status.UnderReview? || d.status.Lost?) then d.amount
      else 0
  }

  function Releases(merchant: string, currency: Currency): Move -> int {
    (m: Move) =>
      if m.merchant == merchant && m.currency == currency && m.key.DirectKey? && m.form == Legs(ReleaseSettlement)
      then m.amount
      else 0
  }

  /** Only direct operations carry direct keys. */
  ghost predicate DirectOps(log: seq<Move>) {
    forall i :: 0 <= i < |log| && log[i].key.DirectKey? ==> log[i].form.Legs? && IsDirect(log[i].form.op)
  }

  lemma {:induction false} NextKeepsDirectOps(w: World, step: Step)
    requires DirectOps(w.log)
    ensures DirectOps(Next(w, step).log)
  {
    if !step.TaskAdvance? {
      OthersKeepDirectOps(w, step);
    } else if step.k < |w.tasks| {
      AdvanceKeepsDirectOps(w, step.k, step.reply);
    }
  }

  lemma {:induction false} PostingsKeepDirectOps(w: World, p: nat, op: Operation, to: PayoutStatus)
    requires DirectOps(w.log)
    ensures DirectOps(PostPayout(w, p, op, to).log)
  {
  }

  lemma {:induction false} AdvanceKeepsDirectOps(w: World, k: nat, reply: Reply)
    requires DirectOps(w.log) && k < |w.tasks|
    ensures DirectOps(AdvanceTask(w, k, reply).log)
  {
    var p := w.tasks[k].payout;
    PostingsKeepDirectOps(w, p, EmitPayout, PayoutStatus.InTransit);
    PostingsKeepDirectOps(w, p, SettlePayout, PayoutStatus.Paid);
    PostingsKeepDirectOps(w, p, FailPayout, PayoutStatus.Failed);
  }

  lemma {:induction false} OthersKeepDirectOps(w: World, step: Step)
    requires DirectOps(w.log) && !step.TaskAdvance?
    ensures DirectOps(Next(w, step).log)
  {
  }

  lemma {:induction false} RunKeepsDirectOps(bps: int, steps: seq<Step>)
    ensures DirectOps(Run(bps, steps).log)
  {
    if steps != [] {
      RunKeepsDirectOps(bps, steps[..|steps| - 1]);
      NextKeepsDirectOps(Run(bps, steps[..|steps| - 1]), steps[|steps| - 1]);
    }
  }

  /** The reserve moves only by holds and releases, and available by their opposites. */
  lemma {:induction false} DirectSplits(log: seq<Move>, merchant: string, currency: Currency)
    requires DirectOps(log)
    ensures Sum(log, DirectOn(Acct(MerchantAvailable, merchant, currency)))
         == Sum(log, Releases(merchant, currency)) - Sum(log, DirectOn(Acct(MerchantReserve, merchant, currency)))
  {
    var x, y := Acct(MerchantAvailable, merchant, currency), Acct(MerchantReserve, merchant, currency);
    forall i | 0 <= i < |log|
      ensures DirectOn(x)(log[i]) == Releases(merchant, currency)(log[i]) - DirectOn(y)(log[i])
    {
      if log[i].key.DirectKey? {
        assert IsDirect(log[i].form.op);
      }
    }
    SumSubtract(log, DirectOn(x), Releases(merchant, currency), DirectOn(y));
  }

  lemma {:induction false} ReserveIsDirect(w: World, merchant: string, currency: Currency)
    requires Balanced(w, Acct(MerchantReserve, merchant, currency))
    ensures Bal(w.log, Acct(MerchantReserve, merchant, currency))
         == Sum(w.log, DirectOn(Acct(MerchantReserve, merchant, currency)))
  {
    var y := Acct(MerchantReserve, merchant, currency);
    SumVanishes(w.attempts, AttemptStake(w.bps, y));
    SumVanishes(w.refunds, RefundStake(y));
    SumVanishes(w.payouts, PayoutStake(y));
    SumVanishes(w.disputes, DisputeStake(y));
  }

  /**
   * On every interleaving, what a merchant has available in a currency is what was
   * released, less the net reserve, less the refunds that are processing, indeterminate
   * or succeeded, less the payouts in transit, indeterminate or paid (and those that
   * are stranded), less the disputes that are open, under review or lost.
   */
  lemma {:induction false} AvailableFollowsStatuses(bps: int, steps: seq<Step>, merchant: string, currency: Currency)
    ensures var w := Run(bps, steps);
            Bal(w.log, Acct(MerchantAvailable, merchant, currency))
            == Sum(w.log, Releases(merchant, currency))
               - Bal(w.log, Acct(MerchantReserve, merchant, currency))
               - Sum(w.refunds, RefundsTaken(merchant, currency))
               - Sum(w.payouts, PayoutsTaken(merchant, currency))
               - Sum(w.disputes, DisputesTaken(merchant, currency))
  {
    var w, x := Run(bps, steps), Acct(MerchantAvailable, merchant, currency);
    RunKeepsCore(bps, steps);
    RunKeepsDirectOps(bps, steps);
    BalancesFollowStatuses(bps, steps, x);
    BalancesFollowStatuses(bps, steps, Acct(MerchantReserve, merchant, currency));
    ReserveIsDirect(w, merchant, currency);
    DirectSplits(w.log, merchant, currency);
    TakenFromAvailable(w, merchant, currency);
    PayoutsTakenFromAvailable(w.payouts, merchant, currency);
  }

  lemma {:induction false} TakenFromAvailable(w: World, merchant: string, currency: Currency)
    ensures var x := Acct(MerchantAvailable, merchant, currency);
            && Sum(w.attempts, AttemptStake(w.bps, x)) == 0
            && Sum(w.refunds, RefundStake(x)) == -Sum(w.refunds, RefundsTaken(merchant, currency))
            && Sum(w.disputes, DisputeStake(x)) == -Sum(w.disputes, DisputesTaken(merchant, currency))
  {
    var x := Acct(MerchantAvailable, merchant, currency);
    SumVanishes(w.attempts, AttemptStake(w.bps, x));
    SumNegated(w.refunds, RefundStake(x), RefundsTaken(merchant, currency));
    SumNegated(w.disputes, DisputeStake(x), DisputesTaken(merchant, currency));
  }

  lemma {:induction false} PayoutsTakenFromAvailable(payouts: seq<Payout>, merchant: string, currency: Currency)
    requires PayoutsOk(payouts)
    ensures Sum(payouts, PayoutStake(Acct(MerchantAvailable, merchant, currency)))
         == -Sum(payouts, PayoutsTaken(merchant, currency))
  {
    var x := Acct(MerchantAvailable, merchant, currency);
    forall i | 0 <= i < |payouts|
      ensures PayoutStake(x)(payouts[i]) == -PayoutsTaken(merchant, currency)(payouts[i])
    {
      assert PayoutOk(payouts[i]);
    }
    SumNegated(payouts, PayoutStake(x), PayoutsTaken(merchant, currency));
  }

  function RefundsReserved(merchant: string, currency: Currency): Refund -> int {
    (r: Refund) =>
      if r.merchant == merchant && r.currency == currency && (r.status.Processing? || r.status.Indeterminate?)
      then r.amount
      else 0
  }

  function DisputesReserved(merchant: string, currency: Currency): Dispute -> int {
    (d: Dispute) =>
      if d.merchant == merchant && d.currency == currency && (d.status.Open? || d.status.UnderReview?)
      then d.amount
      else 0
  }

  function PayoutsOnTheirWay(currency: Currency): Payout -> int {
    (p: Payout) => if p.currency == currency && (p.status.InTransit? || p.status.Indeterminate?) then p.amount else 0
  }

  function StrandedMoney(currency: Currency): Payout -> int {
    (p: Payout) => if p.currency == currency && Stranded(p) then p.amount else 0
  }

  /**
   * Custody, with no condition on concurrent executors: refund.liability is the refunds
   * processing or indeterminate, and dispute.reserve the disputes open or under review.
   */
  lemma {:induction false} CustodyOfRefundsAndDisputes(bps: int, steps: seq<Step>, merchant: string, currency: Currency)
    ensures var w := Run(bps, steps);
            && Bal(w.log, Acct(RefundLiability, merchant, currency)) == Sum(w.refunds, RefundsReserved(merchant, currency))
            && Bal(w.log, Acct(DisputeReserve, merchant, currency)) == Sum(w.disputes, DisputesReserved(merchant, currency))
  {
    LiabilityIsReserved(bps, steps, merchant, currency);
    ReserveIsReserved(bps, steps, merchant, currency);
  }

  lemma {:induction false} DirectTouchesNot(log: seq<Move>, x: Acct)
    requires DirectOps(log)
    requires x.code == RefundLiability || x.code == DisputeReserve || x.code == PayoutInTransit
    ensures Sum(log, DirectOn(x)) == 0
  {
    forall i | 0 <= i < |log| ensures DirectOn(x)(log[i]) == 0 {
      if log[i].key.DirectKey? {
        assert IsDirect(log[i].form.op);
      }
    }
    SumVanishes(log, DirectOn(x));
  }

  lemma {:induction false} LiabilityIsReserved(bps: int, steps: seq<Step>, merchant: string, currency: Currency)
    ensures var w := Run(bps, steps);
            Bal(w.log, Acct(RefundLiability, merchant, currency)) == Sum(w.refunds, RefundsReserved(merchant, currency))
  {
    var w, x := Run(bps, steps), Acct(RefundLiability, merchant, currency);
    RunKeepsDirectOps(bps, steps);
    BalancesFollowStatuses(bps, steps, x);
    DirectTouchesNot(w.log, x);
    SumVanishes(w.attempts, AttemptStake(w.bps, x));
    SumSame(w.refunds, RefundStake(x), RefundsReserved(merchant, currency));
    SumVanishes(w.payouts, PayoutStake(x));
    SumVanishes(w.disputes, DisputeStake(x));
  }

  lemma {:induction false} ReserveIsReserved(bps: int, steps: seq<Step>, merchant: string, currency: Currency)
    ensures var w := Run(bps, steps);
            Bal(w.log, Acct(DisputeReserve, merchant, currency)) == Sum(w.disputes, DisputesReserved(merchant, currency))
  {
    var w, x := Run(bps, steps), Acct(DisputeReserve, merchant, currency);
    RunKeepsDirectOps(bps, steps);
    BalancesFollowStatuses(bps, steps, x);
    DirectTouchesNot(w.log, x);
    SumVanishes(w.attempts, AttemptStake(w.bps, x));
    SumVanishes(w.refunds, RefundStake(x));
    SumVanishes(w.payouts, PayoutStake(x));
    SumSame(w.disputes, DisputeStake(x), DisputesReserved(merchant, currency));
  }

  /**
   * payout.in_transit is the payouts in transit or indeterminate plus the stranded ones:
   * exact on every run, so the custody claim for payouts holds just when none is stranded.
   */
  lemma {:induction false} InTransitFollowsStatuses(bps: int, steps: seq<Step>, merchant: string, currency: Currency)
    ensures var w := Run(bps, steps);
            Bal(w.log, Acct(PayoutInTransit, merchant, currency))
            == Sum(w.payouts, PayoutsOnTheirWay(currency)) + Sum(w.payouts, StrandedMoney(currency))
  {
    var w, x := Run(bps, steps), Acct(PayoutInTransit, merchant, currency);
    RunKeepsCore(bps, steps);
    RunKeepsDirectOps(bps, steps);
    BalancesFollowStatuses(bps, steps, x);
    DirectTouchesNot(w.log, x);
    SumVanishes(w.attempts, AttemptStake(w.bps, x));
    SumVanishes(w.refunds, RefundStake(x));
    SumVanishes(w.disputes, DisputeStake(x));
    forall i | 0 <= i < |w.payouts|
      ensures PayoutStake(x)(w.payouts[i])
           == PayoutsOnTheirWay(currency)(w.payouts[i]) - Negated(StrandedMoney(currency))(w.payouts[i])
    {
      assert PayoutOk(w.payouts[i]);
    }
    SumSubtract(w.payouts, PayoutStake(x), PayoutsOnTheirWay(currency), Negated(StrandedMoney(currency)));
    SumNegated(w.payouts, Negated(StrandedMoney(currency)), StrandedMoney(currency));
  }

  function Negated<T>(f: T -> int): T -> int {
    (x: T) => -f(x)
  }

  // The accounts that are left, so that every account of the chart that moves is told.

  function Captures(currency: Currency): Attempt -> int {
    (a: Attempt) => if a.currency == currency && a.status.Succeeded? then a.amount else 0
  }

  function NetCaptures(bps: int, merchant: string, currency: Currency): Attempt -> int {
    (a: Attempt) =>
      if a.merchant == merchant && a.currency == currency && a.status.Succeeded? then a.amount - FeeOn(a.amount, bps) else 0
  }

  function RefundsPaid(currency: Currency): Refund -> int {
    (r: Refund) => if r.currency == currency && r.status.Succeeded? then r.amount else 0
  }

  function PayoutsPaid(currency: Currency): Payout -> int {
    (p: Payout) => if p.currency == currency && p.status.Paid? then p.amount else 0
  }

  function DisputesLost(currency: Currency): Dispute -> int {
    (d: Dispute) => if d.currency == currency && d.status.Lost? then d.amount else 0
  }

  function ProviderSettlements(currency: Currency): Move -> int {
    (m: Move) =>
      if m.currency == currency && m.key.DirectKey? && m.form == Legs(ReceiveProviderSettlement) then m.amount else 0
  }

  lemma {:induction false} DirectOnClearing(log: seq<Move>, merchant: string, currency: Currency)
    requires DirectOps(log)
    ensures Sum(log, DirectOn(Acct(ProviderClearing, merchant, currency))) == -Sum(log, ProviderSettlements(currency))
  {
    var x := Acct(ProviderClearing, merchant, currency);
    forall i | 0 <= i < |log| ensures DirectOn(x)(log[i]) == -ProviderSettlements(currency)(log[i]) {
      if log[i].key.DirectKey? {
        assert IsDirect(log[i].form.op);
      }
    }
    SumNegated(log, DirectOn(x), ProviderSettlements(currency));
  }

  lemma {:induction false} DirectOnCash(log: seq<Move>, merchant: string, currency: Currency)
    requires DirectOps(log)
    ensures Sum(log, DirectOn(Acct(PlatformCash, merchant, currency))) == Sum(log, ProviderSettlements(currency))
  {
    var x := Acct(PlatformCash, merchant, currency);
    forall i | 0 <= i < |log| ensures DirectOn(x)(log[i]) == ProviderSettlements(currency)(log[i]) {
      if log[i].key.DirectKey? {
        assert IsDirect(log[i].form.op);
      }
    }
    SumSame(log, DirectOn(x), ProviderSettlements(currency));
  }

  lemma {:induction false} DirectOnPending(log: seq<Move>, merchant: string, currency: Currency)
    requires DirectOps(log)
    ensures Sum(log, DirectOn(Acct(MerchantPending, merchant, currency))) == -Sum(log, Releases(merchant, currency))
  {
    var x := Acct(MerchantPending, merchant, currency);
    forall i | 0 <= i < |log| ensures DirectOn(x)(log[i]) == -Releases(merchant, currency)(log[i]) {
      if log[i].key.DirectKey? {
        assert IsDirect(log[i].form.op);
      }
    }
    SumNegated(log, DirectOn(x), Releases(merchant, currency));
  }

  /** What the provider holds: captured, less refunded, less lost in disputes, less settled to cash. */
  lemma {:induction false} ClearingFollowsStatuses(bps: int, steps: seq<Step>, merchant: string, currency: Currency)
    ensures var w := Run(bps, steps);
            Bal(w.log, Acct(ProviderClearing, merchant, currency))
            == Sum(w.attempts, Captures(currency)) - Sum(w.refunds, RefundsPaid(currency))
               - Sum(w.disputes, DisputesLost(currency)) - Sum(w.log, ProviderSettlements(currency))
  {
    var w, x := Run(bps, steps), Acct(ProviderClearing, merchant, currency);
    RunKeepsDirectOps(bps, steps);
    BalancesFollowStatuses(bps, steps, x);
    DirectOnClearing(w.log, merchant, currency);
    SumSame(w.attempts, AttemptStake(w.bps, x), Captures(currency));
    SumNegated(w.refunds, RefundStake(x), RefundsPaid(currency));
    SumVanishes(w.payouts, PayoutStake(x));
    SumNegated(w.disputes, DisputeStake(x), DisputesLost(currency));
  }

  /** What the platform has in cash: settled by providers, less paid out. */
  lemma {:induction false} CashFollowsStatuses(bps: int, steps: seq<Step>, merchant: string, currency: Currency)
    ensures var w := Run(bps, steps);
            Bal(w.log, Acct(PlatformCash, merchant, currency))
            == Sum(w.log, ProviderSettlements(currency)) - Sum(w.payouts, PayoutsPaid(currency))
  {
    var w, x := Run(bps, steps), Acct(PlatformCash, merchant, currency);
    RunKeepsDirectOps(bps, steps);
    BalancesFollowStatuses(bps, steps, x);
    DirectOnCash(w.log, merchant, currency);
    SumVanishes(w.attempts, AttemptStake(w.bps, x));
    SumVanishes(w.refunds, RefundStake(x));
    SumNegated(w.payouts, PayoutStake(x), PayoutsPaid(currency));
    SumVanishes(w.disputes, DisputeStake(x));
  }

  /** What a merchant has pending: captured net of the fee, less released. */
  lemma {:induction false} PendingFollowsStatuses(bps: int, steps: seq<Step>, merchant: string, currency: Currency)
    ensures var w := Run(bps, steps);
            Bal(w.log, Acct(MerchantPending, merchant, currency))
            == Sum(w.attempts, NetCaptures(w.bps, merchant, currency)) - Sum(w.log, Releases(merchant, currency))
  {
    var w, x := Run(bps, steps), Acct(MerchantPending, merchant, currency);
    RunKeepsDirectOps(bps, steps);
    BalancesFollowStatuses(bps, steps, x);
    DirectOnPending(w.log, merchant, currency);
    SumSame(w.attempts, AttemptStake(w.bps, x), NetCaptures(w.bps, merchant, currency));
    SumVanishes(w.refunds, RefundStake(x));
    SumVanishes(w.payouts, PayoutStake(x));
    SumVanishes(w.disputes, DisputeStake(x));
  }
}
