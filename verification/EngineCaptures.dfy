/**
 * Captures: on every run an intent, its attempt and the capture in the ledger agree
 * (packages/payments-core/src/confirmation.ts, service.ts).
 */
module EngineCaptures {
  import opened Prelude
  import opened Money
  import opened Posting
  import opened Books
  import opened Fsm
  import opened Engine
  import opened EngineOutcomes

  /** The statuses of an intent that has been paid. */
  predicate IsPaid(s: IntentStatus) {
    s.Succeeded? || s.PartiallyRefunded? || s.Refunded?
  }

  /** The statuses of an intent that was never submitted to a provider. */
  predicate Unsubmitted(s: IntentStatus) {
    s.Created? || s.RequiresPaymentMethod? || s.RequiresConfirmation? || s.Canceled?
  }

  function OfIntent(i: nat): Attempt -> int {
    (a: Attempt) => if a.intent == i then 1 else 0
  }

  function SucceededOf(i: nat): Attempt -> int {
    (a: Attempt) => if a.intent == i && a.status.Succeeded? then 1 else 0
  }

  /** The status of an attempt against that of its intent. */
  predicate Agree(a: AttemptStatus, i: IntentStatus) {
    match a
    case Submitting => i.Processing?
    case Submitted => i.Processing?
    case Indeterminate => i.Processing?
    case Succeeded => IsPaid(i)
    case Failed => i.Failed?
    case _ => false
  }

  predicate AttemptOk(intents: seq<Intent>, a: Attempt) {
    && a.intent < |intents|
    && a.amount == intents[a.intent].amount
    && Agree(a.status, intents[a.intent].status)
  }

  predicate IntentOk(intent: Intent, attempts: int) {
    && (Unsubmitted(intent.status) || intent.status.Processing? || IsPaid(intent.status) || intent.status.Failed?)
    && attempts == (if Unsubmitted(intent.status) then 0 else 1)
    && intent.amount > 0
    && intent.captured == (if IsPaid(intent.status) then intent.amount else 0)
  }

  ghost predicate AttemptsOk(intents: seq<Intent>, attempts: seq<Attempt>) {
    forall a :: 0 <= a < |attempts| ==> AttemptOk(intents, attempts[a])
  }

  ghost predicate IntentsOk(intents: seq<Intent>, attempts: seq<Attempt>) {
    forall i :: 0 <= i < |intents| ==> IntentOk(intents[i], Sum(attempts, OfIntent(i)))
  }

  ghost predicate Paired(w: World) {
    AttemptsOk(w.intents, w.attempts) && IntentsOk(w.intents, w.attempts)
  }

  /** No attempt is of an intent that counts none. */
  lemma {:induction false} NoneCounted(attempts: seq<Attempt>, i: nat, a: nat)
    requires Sum(attempts, OfIntent(i)) == 0 && a < |attempts|
    ensures attempts[a].intent != i
  {
    SumBoundsTerm(attempts, OfIntent(i), a);
  }

  /** Two attempts are not of one intent that counts one. */
  lemma {:induction false} OneCounted(attempts: seq<Attempt>, a: nat, b: nat)
    requires a < |attempts| && b < |attempts| && a != b
    requires Sum(attempts, OfIntent(attempts[a].intent)) <= 1
    ensures attempts[b].intent != attempts[a].intent
  {
    var i := attempts[a].intent;
    var other := attempts[a].(intent := i + 1);
    SumSet(attempts, a, other, OfIntent(i));
    var fewer := attempts[a := other];
    SumBoundsTerm(fewer, OfIntent(i), b);
    assert fewer[b] == attempts[b];
  }

  /** A change of one attempt's status and of its intent's, in step. */
  lemma {:induction false} PairChanges(intents: seq<Intent>, attempts: seq<Attempt>, a: nat, status: AttemptStatus, intent: Intent)
    requires AttemptsOk(intents, attempts) && IntentsOk(intents, attempts) && a < |attempts|
    requires Agree(status, intent.status) && !Unsubmitted(intent.status)
    requires intent.amount == intents[attempts[a].intent].amount && IntentOk(intent, 1)
    ensures var i := attempts[a].intent;
            && AttemptsOk(intents[i := intent], attempts[a := attempts[a].(status := status)])
            && IntentsOk(intents[i := intent], attempts[a := attempts[a].(status := status)])
  {
    var i := attempts[a].intent;
    assert AttemptOk(intents, attempts[a]);
    var intents', attempts' := intents[i := intent], attempts[a := attempts[a].(status := status)];
    HasOne(attempts, a);
    assert IntentOk(intents[i], Sum(attempts, OfIntent(i)));
    forall b | 0 <= b < |attempts'| ensures AttemptOk(intents', attempts'[b]) {
      assert AttemptOk(intents, attempts[b]);
      if b != a {
        OneCounted(attempts, a, b);
      }
    }
    forall j | 0 <= j < |intents'| ensures IntentOk(intents'[j], Sum(attempts', OfIntent(j))) {
      assert IntentOk(intents[j], Sum(attempts, OfIntent(j)));
      SumSet(attempts, a, attempts'[a], OfIntent(j));
    }
  }

  lemma {:induction false} HasOne(attempts: seq<Attempt>, a: nat)
    requires a < |attempts|
    ensures Sum(attempts, OfIntent(attempts[a].intent)) >= 1
  {
    SumBoundsTerm(attempts, OfIntent(attempts[a].intent), a);
  }

  /** A change of an intent that agrees with whatever attempt it has. */
  lemma {:induction false} IntentChanges(intents: seq<Intent>, attempts: seq<Attempt>, i: nat, intent: Intent)
    requires AttemptsOk(intents, attempts) && IntentsOk(intents, attempts) && i < |intents|
    requires intent.amount == intents[i].amount && IntentOk(intent, Sum(attempts, OfIntent(i)))
    requires forall s: AttemptStatus :: Agree(s, intents[i].status) ==> Agree(s, intent.status)
    ensures AttemptsOk(intents[i := intent], attempts) && IntentsOk(intents[i := intent], attempts)
  {
    forall b | 0 <= b < |attempts| ensures AttemptOk(intents[i := intent], attempts[b]) {
      assert AttemptOk(intents, attempts[b]);
    }
    forall j | 0 <= j < |intents| ensures IntentOk(intents[i := intent][j], Sum(attempts, OfIntent(j))) {
      assert IntentOk(intents[j], Sum(attempts, OfIntent(j)));
    }
  }

  lemma {:induction false} CreateKeepsPaired(w: World, step: Step)
    requires Paired(w) && step.IntentCreate?
    ensures Paired(Next(w, step))
  {
    var t := Next(w, step);
    if t != w {
      forall b | 0 <= b < |t.attempts| ensures AttemptOk(t.intents, t.attempts[b]) {
        assert AttemptOk(w.intents, w.attempts[b]);
      }
      NoneOfNew(w.intents, w.attempts, |w.intents|);
      forall j | 0 <= j < |t.intents| ensures IntentOk(t.intents[j], Sum(t.attempts, OfIntent(j))) {
        if j < |w.intents| {
          assert IntentOk(w.intents[j], Sum(w.attempts, OfIntent(j)));
        }
      }
    }
  }

  lemma {:induction false} NoneOfNew(intents: seq<Intent>, attempts: seq<Attempt>, i: nat)
    requires AttemptsOk(intents, attempts) && i >= |intents|
    ensures Sum(attempts, OfIntent(i)) == 0
  {
    if attempts != [] {
      var n := |attempts| - 1;
      assert forall a :: 0 <= a < n ==> attempts[..n][a] == attempts[a];
      NoneOfNew(intents, attempts[..n], i);
      assert AttemptOk(intents, attempts[n]);
    }
  }

  lemma {:induction false} CancelKeepsPaired(w: World, i: nat)
    requires Paired(w)
    ensures Paired(Next(w, IntentCancel(i)))
  {
    if Legal(w, i, IntentStatus.Canceled) {
      assert IntentOk(w.intents[i], Sum(w.attempts, OfIntent(i)));
      IntentChanges(w.intents, w.attempts, i, w.intents[i].(status := IntentStatus.Canceled));
    }
  }

  lemma {:induction false} PathsReachProcessing(from: IntentStatus)
    requires ConfirmPath(from) != []
    ensures Unsubmitted(from) && !from.Canceled?
    ensures Walk(from, ConfirmPath(from)) == Some(IntentStatus.Processing)
  {
    var p, c, r := IntentStatus.Processing, IntentStatus.RequiresConfirmation, IntentStatus.RequiresPaymentMethod;
    assert [p][1..] == [] && [c, p][1..] == [p] && [r, c, p][1..] == [c, p];
    assert Walk(c, [p]) == Some(p);
    assert Walk(r, [c, p]) == Some(p);
    assert Walk(IntentStatus.Created, [r, c, p]) == Some(p);
  }

  lemma {:induction false} ConfirmKeepsPaired(w: World, i: nat)
    requires Paired(w)
    ensures Paired(Next(w, IntentConfirm(i)))
  {
    var t := Confirm(w, i);
    if t != w {
      PathsReachProcessing(w.intents[i].status);
      var intent := w.intents[i];
      assert IntentOk(intent, Sum(w.attempts, OfIntent(i)));
      SubmitKeepsPaired(w.intents, w.attempts, i);
    }
  }

  lemma {:induction false} SubmitKeepsPaired(intents: seq<Intent>, attempts: seq<Attempt>, i: nat)
    requires AttemptsOk(intents, attempts) && IntentsOk(intents, attempts)
    requires i < |intents| && Unsubmitted(intents[i].status)
    ensures var intents' := intents[i := intents[i].(status := IntentStatus.Processing)];
            var attempts' := attempts
              + [Attempt(i, intents[i].merchant, intents[i].currency, intents[i].amount, AttemptStatus.Submitting)];
            AttemptsOk(intents', attempts') && IntentsOk(intents', attempts')
  {
    var row := Attempt(i, intents[i].merchant, intents[i].currency, intents[i].amount, AttemptStatus.Submitting);
    var intents', attempts' := intents[i := intents[i].(status := IntentStatus.Processing)], attempts + [row];
    assert IntentOk(intents[i], Sum(attempts, OfIntent(i)));
    forall b | 0 <= b < |attempts'| ensures AttemptOk(intents', attempts'[b]) {
      if b < |attempts| {
        assert AttemptOk(intents, attempts[b]);
        NoneCounted(attempts, i, b);
      }
    }
    forall j | 0 <= j < |intents'| ensures IntentOk(intents'[j], Sum(attempts', OfIntent(j))) {
      assert IntentOk(intents[j], Sum(attempts, OfIntent(j)));
      SumPush(attempts, row, OfIntent(j));
    }
  }

  lemma {:induction false} MarkKeepsPaired(w: World, step: Step)
    requires Paired(w) && (step.AttemptSubmit? || step.AttemptDoubt?)
    ensures Paired(Next(w, step))
  {
    var t := Next(w, step);
    if t != w {
      var row := w.attempts[step.a];
      assert AttemptOk(w.intents, row);
      HasOne(w.attempts, step.a);
      assert IntentOk(w.intents[row.intent], Sum(w.attempts, OfIntent(row.intent)));
      PairChanges(w.intents, w.attempts, step.a, t.attempts[step.a].status, w.intents[row.intent]);
      assert w.intents[row.intent := w.intents[row.intent]] == w.intents;
    }
  }

  lemma {:induction false} ApproveKeepsPaired(w: World, a: nat)
    requires Paired(w)
    ensures Paired(Next(w, AttemptApprove(a)))
  {
    var t := Approve(w, a);
    if t != w {
      var row := w.attempts[a];
      assert AttemptOk(w.intents, row);
      assert IntentOk(w.intents[row.intent], Sum(w.attempts, OfIntent(row.intent)));
      PairChanges(w.intents, w.attempts, a, AttemptStatus.Succeeded, t.intents[row.intent]);
    }
  }

  lemma {:induction false} DeclineKeepsPaired(w: World, a: nat)
    requires Paired(w)
    ensures Paired(Next(w, AttemptDecline(a)))
  {
    var t := Decline(w, a);
    if t != w {
      var row := w.attempts[a];
      assert AttemptOk(w.intents, row);
      assert IntentOk(w.intents[row.intent], Sum(w.attempts, OfIntent(row.intent)));
      PairChanges(w.intents, w.attempts, a, AttemptStatus.Failed, t.intents[row.intent]);
    }
  }

  /** What settling a refund changes in the rows. */
  lemma {:induction false} SettleMoves(w: World, r: nat)
    requires CloseRefund(w, r) != w
    ensures r < |w.refunds| && (w.refunds[r].status.Processing? || w.refunds[r].status.Indeterminate?)
    ensures w.refunds[r].intent < |w.intents|
    ensures var t, i := CloseRefund(w, r), w.refunds[r].intent;
            var refunded := w.intents[i].refunded + w.refunds[r].amount;
            var target := if refunded == w.intents[i].captured then IntentStatus.Refunded else IntentStatus.PartiallyRefunded;
            && 0 <= refunded <= w.intents[i].captured && Legal(w, i, target) && t.attempts == w.attempts
            && t.refunds == w.refunds[r := w.refunds[r].(status := RefundStatus.Succeeded)]
            && t.intents == w.intents[i := w.intents[i].(status := target, refunded := refunded)]
  {
  }

  /** A settled refund takes its intent from one paid status to another. */
  lemma {:induction false} SettleKeepsPaired(w: World, r: nat)
    requires Paired(w)
    ensures Paired(Next(w, RefundSettle(r)))
  {
    SettlingIsClose(w, r);
    if CloseRefund(w, r) != w {
      SettleMoves(w, r);
      var i := w.refunds[r].intent;
      SettledIntentAgrees(w.intents, w.attempts, i, CloseRefund(w, r).intents[i]);
    }
  }

  lemma {:induction false} SettlingIsClose(w: World, r: nat)
    ensures Next(w, RefundSettle(r)) == CloseRefund(w, r)
  {
  }

  lemma {:induction false} SettledIntentAgrees(intents: seq<Intent>, attempts: seq<Attempt>, i: nat, intent: Intent)
    requires AttemptsOk(intents, attempts) && IntentsOk(intents, attempts) && i < |intents|
    requires intent == intents[i].(status := intent.status, refunded := intent.refunded)
    requires intent.status.Refunded? || intent.status.PartiallyRefunded?
    requires CanTransition(IntentTransitions, intents[i].status, intent.status)
    ensures AttemptsOk(intents[i := intent], attempts) && IntentsOk(intents[i := intent], attempts)
  {
    assert IntentOk(intents[i], Sum(attempts, OfIntent(i)));
    IntentChanges(intents, attempts, i, intent);
  }

  /** The other steps do not touch intents or attempts. */
  lemma {:induction false} ElsewhereSamePairs(w: World, step: Step)
    requires !step.IntentCreate? && !step.IntentCancel? && !step.IntentConfirm? && !step.AttemptSubmit?
    requires !step.AttemptDoubt? && !step.AttemptApprove? && !step.AttemptDecline? && !step.RefundSettle?
    requires !step.TaskAdvance?
    ensures Next(w, step).intents == w.intents && Next(w, step).attempts == w.attempts
  {
  }

  lemma {:induction false} AdvanceSamePairs(w: World, k: nat, reply: Reply)
    requires k < |w.tasks|
    ensures AdvanceTask(w, k, reply).intents == w.intents && AdvanceTask(w, k, reply).attempts == w.attempts
  {
  }

  lemma {:induction false} NextKeepsPaired(w: World, step: Step)
    requires Paired(w)
    ensures Paired(Next(w, step))
  {
    if step.IntentCreate? {
      CreateKeepsPaired(w, step);
    } else if step.IntentCancel? {
      CancelKeepsPaired(w, step.i);
    } else if step.IntentConfirm? {
      ConfirmKeepsPaired(w, step.i);
    } else if step.AttemptSubmit? || step.AttemptDoubt? {
      MarkKeepsPaired(w, step);
    } else if step.AttemptApprove? {
      ApproveKeepsPaired(w, step.a);
    } else if step.AttemptDecline? {
      DeclineKeepsPaired(w, step.a);
    } else if step.RefundSettle? {
      SettleKeepsPaired(w, step.r);
    } else if !step.TaskAdvance? {
      ElsewhereSamePairs(w, step);
    } else if step.k < |w.tasks| {
      AdvanceSamePairs(w, step.k, step.reply);
    }
  }

  lemma {:induction false} RunKeepsPaired(bps: int, steps: seq<Step>)
    ensures Paired(Run(bps, steps))
  {
    if steps != [] {
      RunKeepsPaired(bps, steps[..|steps| - 1]);
      NextKeepsPaired(Run(bps, steps[..|steps| - 1]), steps[|steps| - 1]);
    }
  }

  lemma {:induction false} SucceededCount(intents: seq<Intent>, attempts: seq<Attempt>, i: nat)
    requires AttemptsOk(intents, attempts) && i < |intents|
    ensures Sum(attempts, SucceededOf(i)) == if IsPaid(intents[i].status) then Sum(attempts, OfIntent(i)) else 0
  {
    if attempts != [] {
      var n := |attempts| - 1;
      assert forall a :: 0 <= a < n ==> attempts[..n][a] == attempts[a];
      SucceededCount(intents, attempts[..n], i);
      assert AttemptOk(intents, attempts[n]);
    }
  }

  /** Attempt a is of intent i and its capture is in the ledger. */
  predicate CapturedBy(w: World, i: nat, a: nat) {
    a < |w.attempts| && w.attempts[a].intent == i && Has(w.log, AttemptKey(a))
  }

  lemma {:induction false} SomeAttempt(attempts: seq<Attempt>, i: nat) returns (a: nat)
    requires Sum(attempts, OfIntent(i)) >= 1
    ensures a < |attempts| && attempts[a].intent == i
  {
    var n := |attempts| - 1;
    if attempts[n].intent == i {
      a := n;
    } else {
      a := SomeAttempt(attempts[..n], i);
    }
  }

  /**
   * Capture consistency, on every run and for every intent: it has been paid exactly when
   * one of its attempts has succeeded, exactly when the ledger holds a capture for one of
   * its attempts, which is then the only one; then the whole amount is captured, and
   * otherwise nothing. No intent ever has a second attempt.
   */
  lemma {:induction false} CapturesAgree(bps: int, steps: seq<Step>, i: nat)
    requires i < |Run(bps, steps).intents|
    ensures var w := Run(bps, steps);
            var intent := w.intents[i];
            && (IsPaid(intent.status) <==> Sum(w.attempts, SucceededOf(i)) == 1)
            && (IsPaid(intent.status) <==> exists a: nat :: CapturedBy(w, i, a))
            && (forall a: nat, b: nat :: CapturedBy(w, i, a) && CapturedBy(w, i, b) ==> a == b)
            && intent.captured == (if IsPaid(intent.status) then intent.amount else 0)
            && Sum(w.attempts, OfIntent(i)) <= 1
  {
    var w := Run(bps, steps);
    RunKeepsPaired(bps, steps);
    RunKeepsCore(bps, steps);
    assert IntentOk(w.intents[i], Sum(w.attempts, OfIntent(i)));
    SucceededCount(w.intents, w.attempts, i);
    forall a: nat | CapturedBy(w, i, a) ensures IsPaid(w.intents[i].status) {
      assert AttemptKeyed(w.log, w.attempts, a) && AttemptOk(w.intents, w.attempts[a]);
    }
    if IsPaid(w.intents[i].status) {
      var a := SomeAttempt(w.attempts, i);
      assert AttemptOk(w.intents, w.attempts[a]) && AttemptKeyed(w.log, w.attempts, a);
      assert CapturedBy(w, i, a);
    }
    forall a: nat, b: nat | CapturedBy(w, i, a) && CapturedBy(w, i, b) ensures a == b {
      if a != b {
        OneCounted(w.attempts, a, b);
      }
    }
  }
}
