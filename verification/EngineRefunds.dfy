/**
 * How much of an intent its refunds can claim (packages/payments-core/src/refunds.ts).
 * What beginIn takes as remaining leaves out the refunds whose outcome is unknown.
 */
module EngineRefunds {
  import opened Prelude
  import opened Money
  import opened Posting
  import opened Books
  import opened Fsm
  import opened Engine
  import opened EngineOutcomes
  import opened EngineCaptures
  import opened EngineExamples

  function Doubtful(i: nat): Refund -> int {
    (r: Refund) => if r.intent == i && r.status.Indeterminate? then r.amount else 0
  }

  function SettledOn(i: nat): Refund -> int {
    (r: Refund) => if r.intent == i && r.status.Succeeded? then r.amount else 0
  }

  /** A refund is of a paid intent, in its currency and for its merchant. */
  predicate RefundOk(intents: seq<Intent>, r: Refund) {
    && r.intent < |intents| && r.amount > 0 && IsPaid(intents[r.intent].status)
    && r.merchant == intents[r.intent].merchant && r.currency == intents[r.intent].currency
  }

  /** amount_refunded is what its succeeded refunds sum to, and the status says how much that is. */
  predicate RefundedOk(intent: Intent, settled: int) {
    && intent.refunded == settled && 0 <= settled <= intent.captured
    && (!IsPaid(intent.status) || intent.status.Succeeded? ==> settled == 0)
    && (intent.status.PartiallyRefunded? ==> 0 < settled < intent.captured)
    && (intent.status.Refunded? ==> settled == intent.captured)
  }

  ghost predicate RefundsOk(intents: seq<Intent>, refunds: seq<Refund>) {
    forall r :: 0 <= r < |refunds| ==> RefundOk(intents, refunds[r])
  }

  ghost predicate SumsOk(intents: seq<Intent>, refunds: seq<Refund>) {
    forall i :: 0 <= i < |intents| ==> RefundedOk(intents[i], Sum(refunds, SettledOn(i)))
  }

  ghost predicate Counted(w: World) {
    RefundsOk(w.intents, w.refunds) && SumsOk(w.intents, w.refunds)
  }

  // ------------------------------------------------------------ the invariant

  lemma {:induction false} NoneBeyond(intents: seq<Intent>, refunds: seq<Refund>, i: nat)
    requires RefundsOk(intents, refunds) && (i >= |intents| || !IsPaid(intents[i].status))
    ensures Sum(refunds, SettledOn(i)) == 0 && Sum(refunds, Reserving(i)) == 0 && Sum(refunds, Doubtful(i)) == 0
  {
    if refunds != [] {
      var n := |refunds| - 1;
      assert forall r :: 0 <= r < n ==> refunds[..n][r] == refunds[r];
      NoneBeyond(intents, refunds[..n], i);
      assert RefundOk(intents, refunds[n]);
    }
  }

  /** A change of an intent that keeps its refunds' claims on it. */
  lemma {:induction false} IntentMoves(intents: seq<Intent>, refunds: seq<Refund>, i: nat, intent: Intent)
    requires RefundsOk(intents, refunds) && SumsOk(intents, refunds) && i < |intents|
    requires IsPaid(intents[i].status) ==> IsPaid(intent.status)
    requires intent.merchant == intents[i].merchant && intent.currency == intents[i].currency
    requires RefundedOk(intent, Sum(refunds, SettledOn(i)))
    ensures RefundsOk(intents[i := intent], refunds) && SumsOk(intents[i := intent], refunds)
  {
    forall r | 0 <= r < |refunds| ensures RefundOk(intents[i := intent], refunds[r]) {
      assert RefundOk(intents, refunds[r]);
    }
    forall j | 0 <= j < |intents| ensures RefundedOk(intents[i := intent][j], Sum(refunds, SettledOn(j))) {
      assert RefundedOk(intents[j], Sum(refunds, SettledOn(j)));
    }
  }

  lemma {:induction false} CreateKeepsCounted(w: World, step: Step)
    requires Counted(w) && step.IntentCreate?
    ensures Counted(Next(w, step))
  {
    var t := Next(w, step);
    NoneBeyond(w.intents, w.refunds, |w.intents|);
    forall r | 0 <= r < |t.refunds| ensures RefundOk(t.intents, t.refunds[r]) {
      assert RefundOk(w.intents, w.refunds[r]);
    }
    forall i | 0 <= i < |t.intents| ensures RefundedOk(t.intents[i], Sum(t.refunds, SettledOn(i))) {
      if i < |w.intents| {
        assert RefundedOk(w.intents[i], Sum(w.refunds, SettledOn(i)));
      }
    }
  }

  /** An unpaid intent that changes status has no refunds to disturb. */
  lemma {:induction false} UnpaidMoves(intents: seq<Intent>, refunds: seq<Refund>, i: nat, intent: Intent)
    requires RefundsOk(intents, refunds) && SumsOk(intents, refunds) && i < |intents| && !IsPaid(intents[i].status)
    requires intent.merchant == intents[i].merchant && intent.currency == intents[i].currency
    requires intent.refunded == intents[i].refunded && intent.captured >= 0
    requires !IsPaid(intent.status) || intent.status.Succeeded?
    ensures RefundsOk(intents[i := intent], refunds) && SumsOk(intents[i := intent], refunds)
  {
    assert RefundedOk(intents[i], Sum(refunds, SettledOn(i)));
    IntentMoves(intents, refunds, i, intent);
  }

  lemma {:induction false} CancelKeepsCounted(w: World, i: nat)
    requires Counted(w)
    ensures Counted(Next(w, IntentCancel(i)))
  {
    if Legal(w, i, IntentStatus.Canceled) {
      assert RefundedOk(w.intents[i], Sum(w.refunds, SettledOn(i)));
      UnpaidMoves(w.intents, w.refunds, i, w.intents[i].(status := IntentStatus.Canceled));
    }
  }

  lemma {:induction false} ConfirmKeepsCounted(w: World, i: nat)
    requires Counted(w)
    ensures Counted(Next(w, IntentConfirm(i)))
  {
    if Confirm(w, i) != w {
      PathsReachProcessing(w.intents[i].status);
      assert RefundedOk(w.intents[i], Sum(w.refunds, SettledOn(i)));
      UnpaidMoves(w.intents, w.refunds, i, w.intents[i].(status := IntentStatus.Processing));
    }
  }

  lemma {:induction false} ApproveKeepsCounted(w: World, a: nat)
    requires Counted(w) && Paired(w)
    ensures Counted(Next(w, AttemptApprove(a)))
  {
    var t := Approve(w, a);
    if t != w {
      var i := w.attempts[a].intent;
      assert AttemptOk(w.intents, w.attempts[a]) && IntentOk(w.intents[i], Sum(w.attempts, OfIntent(i)));
      UnpaidMoves(w.intents, w.refunds, i, t.intents[i]);
    }
  }

  lemma {:induction false} DeclineKeepsCounted(w: World, a: nat)
    requires Counted(w)
    ensures Counted(Next(w, AttemptDecline(a)))
  {
    var t := Decline(w, a);
    if t != w {
      var i := w.attempts[a].intent;
      assert RefundedOk(w.intents[i], Sum(w.refunds, SettledOn(i)));
      UnpaidMoves(w.intents, w.refunds, i, t.intents[i]);
    }
  }

  lemma {:induction false} BeginKeepsCounted(w: World, i: nat, asked: Option<int>)
    requires Counted(w)
    ensures Counted(Next(w, RefundBegin(i, asked)))
  {
    var t := BeginRefund(w, i, asked);
    if t != w {
      var row := t.refunds[|w.refunds|];
      forall j | 0 <= j < |t.intents| ensures RefundedOk(t.intents[j], Sum(t.refunds, SettledOn(j))) {
        assert RefundedOk(w.intents[j], Sum(w.refunds, SettledOn(j)));
        SumPush(w.refunds, row, SettledOn(j));
      }
      forall r | 0 <= r < |t.refunds| ensures RefundOk(t.intents, t.refunds[r]) {
        if r < |w.refunds| {
          assert RefundOk(w.intents, w.refunds[r]);
        }
      }
    }
  }

  /** A change of a refund's status, short of success, moves no settled sum. */
  lemma {:induction false} StatusMoves(intents: seq<Intent>, refunds: seq<Refund>, r: nat, to: RefundStatus)
    requires RefundsOk(intents, refunds) && SumsOk(intents, refunds) && r < |refunds|
    requires !refunds[r].status.Succeeded? && !to.Succeeded?
    ensures RefundsOk(intents, refunds[r := refunds[r].(status := to)])
    ensures SumsOk(intents, refunds[r := refunds[r].(status := to)])
  {
    var row := refunds[r].(status := to);
    var after := refunds[r := row];
    forall q | 0 <= q < |after| ensures RefundOk(intents, after[q]) {
      assert RefundOk(intents, refunds[q]) && RefundOk(intents, refunds[r]);
    }
    forall i | 0 <= i < |intents| ensures RefundedOk(intents[i], Sum(after, SettledOn(i))) {
      assert RefundedOk(intents[i], Sum(refunds, SettledOn(i)));
      SumSet(refunds, r, row, SettledOn(i));
    }
  }

  lemma {:induction false} RefundStatusKeepsCounted(w: World, step: Step)
    requires Counted(w)
    requires step.RefundReserve? || step.RefundDrop? || step.RefundReject? || step.RefundDoubt?
    ensures Counted(Next(w, step))
  {
    var t := Next(w, step);
    if t != w {
      OneStatusMoved(w, step);
      StatusMoves(w.intents, w.refunds, step.r, t.refunds[step.r].status);
    }
  }

  lemma {:induction false} OneStatusMoved(w: World, step: Step)
    requires step.RefundReserve? || step.RefundDrop? || step.RefundReject? || step.RefundDoubt?
    requires Next(w, step) != w
    ensures step.r < |w.refunds| && |Next(w, step).refunds| == |w.refunds| && Next(w, step).intents == w.intents
    ensures var to := Next(w, step).refunds[step.r].status;
            && Next(w, step).refunds == w.refunds[step.r := w.refunds[step.r].(status := to)]
            && CanTransition(RefundTransitions, w.refunds[step.r].status, to) && !to.Succeeded?
  {
  }

  lemma {:induction false} SettleKeepsCounted(w: World, r: nat)
    requires Counted(w) && Paired(w)
    ensures Counted(Next(w, RefundSettle(r)))
  {
    var t := CloseRefund(w, r);
    if t != w {
      SettleMoves(w, r);
      var i, row := w.refunds[r].intent, w.refunds[r].(status := RefundStatus.Succeeded);
      assert RefundOk(w.intents, w.refunds[r]) && IntentOk(w.intents[i], Sum(w.attempts, OfIntent(i)));
      forall q | 0 <= q < |t.refunds| ensures RefundOk(t.intents, t.refunds[q]) {
        assert RefundOk(w.intents, w.refunds[q]);
      }
      forall j | 0 <= j < |t.intents| ensures RefundedOk(t.intents[j], Sum(t.refunds, SettledOn(j))) {
        assert RefundedOk(w.intents[j], Sum(w.refunds, SettledOn(j)));
        SumSet(w.refunds, r, row, SettledOn(j));
      }
    }
  }

  lemma {:induction false} ElsewhereSameRefunds(w: World, step: Step)
    requires step.AttemptSubmit? || step.AttemptDoubt? || step.PayoutBegin? || step.PayoutStart? || step.PayoutHear?
             || step.PayoutSweep? || step.TaskCrash? || step.DisputeOpen? || step.DisputeReview? || step.DisputeWin?
             || step.DisputeLose? || step.DirectPost?
    ensures Next(w, step).intents == w.intents && Next(w, step).refunds == w.refunds
  {
  }

  lemma {:induction false} AdvanceSameRefunds(w: World, k: nat, reply: Reply)
    requires k < |w.tasks|
    ensures AdvanceTask(w, k, reply).intents == w.intents && AdvanceTask(w, k, reply).refunds == w.refunds
  {
  }

  lemma {:induction false} NextKeepsCounted(w: World, step: Step)
    requires Counted(w) && Paired(w)
    ensures Counted(Next(w, step))
  {
    if step.IntentCreate? {
      CreateKeepsCounted(w, step);
    } else if step.IntentCancel? {
      CancelKeepsCounted(w, step.i);
    } else if step.IntentConfirm? {
      ConfirmKeepsCounted(w, step.i);
    } else if step.AttemptApprove? {
      ApproveKeepsCounted(w, step.a);
    } else if step.AttemptDecline? {
      DeclineKeepsCounted(w, step.a);
    } else if step.RefundBegin? {
      BeginKeepsCounted(w, step.i, step.asked);
    } else if step.RefundReserve? || step.RefundDrop? || step.RefundReject? || step.RefundDoubt? {
      RefundStatusKeepsCounted(w, step);
    } else if step.RefundSettle? {
      SettleKeepsCounted(w, step.r);
    } else if !step.TaskAdvance? {
      ElsewhereSameRefunds(w, step);
    } else if step.k < |w.tasks| {
      AdvanceSameRefunds(w, step.k, step.reply);
    }
  }

  lemma {:induction false} RunKeepsCounted(bps: int, steps: seq<Step>)
    ensures Counted(Run(bps, steps))
  {
    if steps != [] {
      RunKeepsCounted(bps, steps[..|steps| - 1]);
      RunKeepsPaired(bps, steps[..|steps| - 1]);
      NextKeepsCounted(Run(bps, steps[..|steps| - 1]), steps[|steps| - 1]);
    }
  }

  /**
   * On every run amount_refunded is the sum of the refunds that succeeded, it stays
   * within what was captured, and an intent is refunded exactly when it reaches it.
   */
  lemma {:induction false} RefundedIsSettled(bps: int, steps: seq<Step>, i: nat)
    requires i < |Run(bps, steps).intents|
    ensures var w := Run(bps, steps);
            && w.intents[i].refunded == Sum(w.refunds, SettledOn(i))
            && 0 <= w.intents[i].refunded <= w.intents[i].captured
            && (IsPaid(w.intents[i].status) ==>
                  (w.intents[i].status.Refunded? <==> w.intents[i].refunded == w.intents[i].captured))
  {
    RunKeepsCounted(bps, steps);
    RunKeepsPaired(bps, steps);
    var w := Run(bps, steps);
    assert RefundedOk(w.intents[i], Sum(w.refunds, SettledOn(i)));
    assert IntentOk(w.intents[i], Sum(w.attempts, OfIntent(i)));
  }

  // ---------------------------------------------------------------- the bound

  /** What is refunded or may still be. */
  function Claimed(w: World, i: nat): int
    requires i < |w.intents|
  {
    w.intents[i].refunded + Sum(w.refunds, Reserving(i)) + Sum(w.refunds, Doubtful(i))
  }

  ghost predicate Bounded(w: World, i: nat) {
    i < |w.intents| ==> Claimed(w, i) <= w.intents[i].captured
  }

  ghost predicate NoneDoubtful(w: World, i: nat) {
    forall r :: 0 <= r < |w.refunds| && w.refunds[r].intent == i ==> !w.refunds[r].status.Indeterminate?
  }

  /** No refund begins while another of its intent is indeterminate. */
  ghost predicate QuietBegins(bps: int, steps: seq<Step>) {
    steps == [] ||
    var front, last := steps[..|steps| - 1], steps[|steps| - 1];
    QuietBegins(bps, front) && (last.RefundBegin? ==> NoneDoubtful(Run(bps, front), last.i))
  }

  lemma {:induction false} DoubtIsPositive(intents: seq<Intent>, refunds: seq<Refund>, i: nat)
    requires RefundsOk(intents, refunds)
    ensures Sum(refunds, Doubtful(i)) >= 0
    ensures Sum(refunds, Doubtful(i)) == 0 <==>
            forall r :: 0 <= r < |refunds| && refunds[r].intent == i ==> !refunds[r].status.Indeterminate?
  {
    if refunds != [] {
      var n := |refunds| - 1;
      assert forall r :: 0 <= r < n ==> refunds[..n][r] == refunds[r];
      DoubtIsPositive(intents, refunds[..n], i);
      assert RefundOk(intents, refunds[n]);
      assert (forall r :: 0 <= r < |refunds| && refunds[r].intent == i ==> !refunds[r].status.Indeterminate?)
        <==> (forall r :: 0 <= r < n && refunds[..n][r].intent == i ==> !refunds[..n][r].status.Indeterminate?)
             && (refunds[n].intent == i ==> !refunds[n].status.Indeterminate?);
    }
  }

  /**
   * A refund that begins keeps the bound exactly when its amount leaves room for the
   * indeterminate ones, which the check of beginIn does not ask.
   */
  lemma {:induction false} BeginKeepsBoundIff(w: World, i: nat, asked: Option<int>)
    requires i < |w.intents| && BeginRefund(w, i, asked) != w
    ensures var amount := if asked.Some? then asked.value else Remaining(w, i);
            Bounded(BeginRefund(w, i, asked), i) <==> amount + Sum(w.refunds, Doubtful(i)) <= Remaining(w, i)
  {
    var t := BeginRefund(w, i, asked);
    SumPush(w.refunds, t.refunds[|w.refunds|], Reserving(i));
    SumPush(w.refunds, t.refunds[|w.refunds|], Doubtful(i));
  }

  /** A refund of all that remains keeps the bound exactly when none is indeterminate. */
  lemma {:induction false} WholeRefundKeepsBoundIff(w: World, i: nat)
    requires Counted(w) && i < |w.intents| && BeginRefund(w, i, None) != w
    ensures Bounded(BeginRefund(w, i, None), i) <==> NoneDoubtful(w, i)
  {
    BeginKeepsBoundIff(w, i, None);
    DoubtIsPositive(w.intents, w.refunds, i);
  }

  /** A step that begins no refund of intent j, or one that leaves room for its indeterminate ones. */
  predicate LeavesRoom(w: World, step: Step, j: nat) {
    step.RefundBegin? && step.i == j && j < |w.intents| && BeginRefund(w, j, step.asked) != w ==>
      var amount := if step.asked.Some? then step.asked.value else Remaining(w, j);
      amount + Sum(w.refunds, Doubtful(j)) <= Remaining(w, j)
  }

  /** Where none is indeterminate, what beginIn checks is enough. */
  lemma {:induction false} QuietLeavesRoom(w: World, step: Step, j: nat)
    requires Counted(w) && (step.RefundBegin? ==> NoneDoubtful(w, step.i))
    ensures LeavesRoom(w, step, j)
  {
    if step.RefundBegin? && step.i == j {
      DoubtIsPositive(w.intents, w.refunds, j);
    }
  }

  lemma {:induction false} BeginOfIntentIff(w: World, i: nat, asked: Option<int>, j: nat)
    requires Bounded(w, j)
    ensures Bounded(Next(w, RefundBegin(i, asked)), j) <==> LeavesRoom(w, RefundBegin(i, asked), j)
  {
    var t := BeginRefund(w, i, asked);
    if t != w {
      if j == i {
        BeginKeepsBoundIff(w, i, asked);
      } else {
        SumPush(w.refunds, t.refunds[|w.refunds|], Reserving(j));
        SumPush(w.refunds, t.refunds[|w.refunds|], Doubtful(j));
      }
    }
  }

  lemma {:induction false} StatusKeepsBound(w: World, step: Step, j: nat)
    requires Counted(w) && Bounded(w, j)
    requires step.RefundReserve? || step.RefundDrop? || step.RefundReject? || step.RefundDoubt?
    ensures Bounded(Next(w, step), j)
  {
    var t := Next(w, step);
    if t != w {
      OneStatusMoved(w, step);
      assert RefundOk(w.intents, w.refunds[step.r]);
      StatusClaimsNoMore(w.refunds, step.r, t.refunds[step.r].status, j);
    }
  }

  lemma {:induction false} StatusClaimsNoMore(refunds: seq<Refund>, r: nat, to: RefundStatus, j: nat)
    requires r < |refunds| && refunds[r].amount > 0 && CanTransition(RefundTransitions, refunds[r].status, to)
    ensures var after := refunds[r := refunds[r].(status := to)];
            Sum(after, Reserving(j)) + Sum(after, Doubtful(j)) <= Sum(refunds, Reserving(j)) + Sum(refunds, Doubtful(j))
  {
    SumSet(refunds, r, refunds[r].(status := to), Reserving(j));
    SumSet(refunds, r, refunds[r].(status := to), Doubtful(j));
  }

  lemma {:induction false} SettleKeepsBound(w: World, r: nat, j: nat)
    requires Bounded(w, j)
    ensures Bounded(Next(w, RefundSettle(r)), j)
  {
    var t := CloseRefund(w, r);
    if t != w {
      SettleMoves(w, r);
      SumSet(w.refunds, r, t.refunds[r], Reserving(j));
      SumSet(w.refunds, r, t.refunds[r], Doubtful(j));
    }
  }

  /** The steps on intents and attempts: what is captured does not shrink. */
  lemma {:induction false} IntentsKeepBound(w: World, step: Step, j: nat)
    requires Counted(w) && Paired(w) && Bounded(w, j)
    requires step.IntentCreate? || step.IntentCancel? || step.IntentConfirm? || step.AttemptApprove? || step.AttemptDecline?
    ensures Bounded(Next(w, step), j)
  {
    var t := Next(w, step);
    if j < |w.intents| {
      assert IntentOk(w.intents[j], Sum(w.attempts, OfIntent(j)));
      IntentsKeepClaims(w, step, j);
    } else {
      NoneBeyond(w.intents, w.refunds, j);
      NewIntentIsClean(w, step);
    }
  }

  lemma {:induction false} NewIntentIsClean(w: World, step: Step)
    requires step.IntentCreate? || step.IntentCancel? || step.IntentConfirm? || step.AttemptApprove? || step.AttemptDecline?
    ensures var t := Next(w, step);
            && t.refunds == w.refunds
            && forall j :: |w.intents| <= j < |t.intents| ==> t.intents[j].refunded == 0 && t.intents[j].captured == 0
  {
  }

  lemma {:induction false} IntentsKeepClaims(w: World, step: Step, j: nat)
    requires j < |w.intents| && IntentOk(w.intents[j], Sum(w.attempts, OfIntent(j)))
    requires step.IntentCreate? || step.IntentCancel? || step.IntentConfirm? || step.AttemptApprove? || step.AttemptDecline?
    ensures var t := Next(w, step);
            && t.refunds == w.refunds && j < |t.intents|
            && t.intents[j].refunded == w.intents[j].refunded && t.intents[j].captured >= w.intents[j].captured
  {
  }

  /**
   * Of all the steps that any process can take, one breaks the bound of an intent exactly
   * when it begins a refund that leaves no room for the indeterminate ones.
   */
  lemma {:induction false} NextKeepsBoundIff(w: World, step: Step, j: nat)
    requires Counted(w) && Paired(w) && Bounded(w, j)
    ensures Bounded(Next(w, step), j) <==> LeavesRoom(w, step, j)
  {
    if step.IntentCreate? || step.IntentCancel? || step.IntentConfirm? || step.AttemptApprove? || step.AttemptDecline? {
      IntentsKeepBound(w, step, j);
    } else if step.RefundBegin? {
      BeginOfIntentIff(w, step.i, step.asked, j);
    } else if step.RefundReserve? || step.RefundDrop? || step.RefundReject? || step.RefundDoubt? {
      StatusKeepsBound(w, step, j);
    } else if step.RefundSettle? {
      SettleKeepsBound(w, step.r, j);
    } else if !step.TaskAdvance? {
      ElsewhereSameRefunds(w, step);
    } else if step.k < |w.tasks| {
      AdvanceSameRefunds(w, step.k, step.reply);
    }
  }

  /** The bound of intent i holds after every step of the run. */
  ghost predicate BoundedThroughout(bps: int, steps: seq<Step>, i: nat) {
    Bounded(Run(bps, steps), i) && (steps == [] || BoundedThroughout(bps, steps[..|steps| - 1], i))
  }

  /** Every refund of intent i that began on the run left room for the indeterminate ones. */
  ghost predicate RoomyBegins(bps: int, steps: seq<Step>, i: nat) {
    steps == [] ||
    var front, last := steps[..|steps| - 1], steps[|steps| - 1];
    RoomyBegins(bps, front, i) && LeavesRoom(Run(bps, front), last, i)
  }

  /**
   * The refund bound in full: on every run, what is refunded of an intent and what may
   * still be stay within what was captured throughout, if and only if every refund that
   * began left room for the indeterminate ones.
   */
  lemma {:induction false} BoundedIffRoomy(bps: int, steps: seq<Step>, i: nat)
    ensures BoundedThroughout(bps, steps, i) <==> RoomyBegins(bps, steps, i)
  {
    if steps != [] {
      var front, last := steps[..|steps| - 1], steps[|steps| - 1];
      BoundedIffRoomy(bps, front, i);
      if BoundedThroughout(bps, front, i) {
        assert Bounded(Run(bps, front), i);
        RunKeepsCounted(bps, front);
        RunKeepsPaired(bps, front);
        NextKeepsBoundIff(Run(bps, front), last, i);
      }
    }
  }

  /**
   * In particular, where no refund begins while another of its intent is indeterminate,
   * what is refunded and what may still be never exceeds what was captured.
   */
  lemma {:induction false} RefundsAreBounded(bps: int, steps: seq<Step>, i: nat)
    requires QuietBegins(bps, steps)
    ensures Bounded(Run(bps, steps), i)
  {
    QuietIsRoomy(bps, steps, i);
    BoundedIffRoomy(bps, steps, i);
  }

  lemma {:induction false} QuietIsRoomy(bps: int, steps: seq<Step>, i: nat)
    requires QuietBegins(bps, steps)
    ensures RoomyBegins(bps, steps, i)
  {
    if steps != [] {
      var front, last := steps[..|steps| - 1], steps[|steps| - 1];
      QuietIsRoomy(bps, front, i);
      RunKeepsCounted(bps, front);
      QuietLeavesRoom(Run(bps, front), last, i);
    }
  }

  // ------------------------------------------------------------- when it fails

  function Overclaim(a: int, b: int): seq<Step> {
    [RefundBegin(0, Some(a)), RefundReserve(0), RefundDoubt(0), RefundBegin(0, Some(b))]
  }

  lemma {:induction false} FirstRefund(m: string, c: Currency, n: int, a: int)
    requires 0 < a <= n
    ensures var w := Sold(m, c, n, Released(m, c, n), [], []);
            var row := Refund(0, m, c, a, RefundStatus.Created);
            Next(w, RefundBegin(0, Some(a))) == w.(refunds := [row])
            && RefundMove(w.(refunds := [row]), 0, RequestRefund)
               == Move(ResourceKey(RequestRefund, 0), Legs(RequestRefund), m, c, a)
  {
  }

  lemma {:induction false} FirstReserved(m: string, c: Currency, n: int, a: int)
    requires 0 < a <= n
    ensures var w := Sold(m, c, n, Released(m, c, n), [], []);
            var move := Move(ResourceKey(RequestRefund, 0), Legs(RequestRefund), m, c, a);
            Next(w.(refunds := [Refund(0, m, c, a, RefundStatus.Created)]), RefundReserve(0))
            == w.(refunds := [Refund(0, m, c, a, RefundStatus.Processing)], log := Released(m, c, n) + [move])
  {
    var move := Move(ResourceKey(RequestRefund, 0), Legs(RequestRefund), m, c, a);
    ReleasedBalances(m, c, n);
    assert Released(m, c, n) == [] + [Charged(m, c, n)] + [Directed("release", ReleaseSettlement, m, c, n)];
    HasPush([], Charged(m, c, n), move.key);
    HasPush([] + [Charged(m, c, n)], Directed("release", ReleaseSettlement, m, c, n), move.key);
    assert Ask(Released(m, c, n), move) == Posted;
  }

  lemma {:induction false} SecondRefund(w: World, a: int, b: int)
    requires |w.intents| == 1 && w.intents[0].status.Succeeded? && w.intents[0].refunded == 0
    requires |w.refunds| == 1 && w.refunds[0].status.Processing? && w.refunds[0].intent == 0 && w.refunds[0].amount == a
    requires 0 < b <= w.intents[0].captured
    ensures var t := Next(Next(w, RefundDoubt(0)), RefundBegin(0, Some(b)));
            t.intents == w.intents && |t.refunds| == 2 && Claimed(t, 0) == a + b
  {
    var d := Next(w, RefundDoubt(0));
    var doubted := w.refunds[0].(status := RefundStatus.Indeterminate);
    assert d.refunds == [] + [doubted];
    SumPush([], doubted, Reserving(0));
    SumPush([], doubted, Doubtful(0));
    var t := Next(d, RefundBegin(0, Some(b)));
    assert Remaining(d, 0) == w.intents[0].captured;
    assert t.refunds == d.refunds + [t.refunds[1]];
    SumPush(d.refunds, t.refunds[1], Reserving(0));
    SumPush(d.refunds, t.refunds[1], Doubtful(0));
  }

  /**
   * Of a sale of n, refunds of a and of b are both accepted although together they exceed
   * it, once the first has become indeterminate: 60 and then 60 of 100.
   */
  lemma {:induction false} RefundsOverclaim(m: string, c: Currency, n: int, a: int, b: int)
    requires 0 < a <= n && 0 < b <= n && a + b > n
    ensures var w := Run(0, Sale(m, c, n) + Overclaim(a, b));
            |w.intents| == 1 && w.intents[0].captured == n && Claimed(w, 0) == a + b && !Bounded(w, 0)
  {
    var s := Sold(m, c, n, Released(m, c, n), [], []);
    SaleWorks(m, c, n);
    AfterMore(Begin(0), Sale(m, c, n), Overclaim(a, b));
    AfterFour(s, RefundBegin(0, Some(a)), RefundReserve(0), RefundDoubt(0), RefundBegin(0, Some(b)));
    FirstRefund(m, c, n, a);
    FirstReserved(m, c, n, a);
    SecondRefund(Next(Next(s, RefundBegin(0, Some(a))), RefundReserve(0)), a, b);
  }
}
