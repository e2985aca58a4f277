/** The transition maps of the payment lifecycles (packages/payments-core/src/fsm.ts). */
module Fsm {
  datatype IntentStatus =
    | Created | RequiresPaymentMethod | RequiresConfirmation | RequiresAction | Processing | Authorized
    | PartiallyCaptured | Succeeded | Failed | Canceled | PartiallyRefunded | Refunded

  datatype AttemptStatus =
    | Created | Submitting | Submitted | RequiresAction | Indeterminate | Succeeded | Failed | Expired

  datatype RefundStatus = Created | Processing | Indeterminate | Succeeded | Failed | Canceled

  datatype PayoutStatus = Requested | InTransit | Paid | Failed | Indeterminate

  datatype DisputeStatus = Open | UnderReview | Won | Lost

  function IntentTransitions(from: IntentStatus): seq<IntentStatus> {
    match from
    case Created => [IntentStatus.RequiresPaymentMethod, IntentStatus.Canceled]
    case RequiresPaymentMethod => [IntentStatus.RequiresConfirmation, IntentStatus.Canceled]
    case RequiresConfirmation => [IntentStatus.Processing, IntentStatus.Canceled]
    case RequiresAction => [IntentStatus.Processing, IntentStatus.Failed]
    case Processing =>
      [IntentStatus.RequiresAction, IntentStatus.Authorized, IntentStatus.Succeeded, IntentStatus.Failed]
    case Authorized => [IntentStatus.PartiallyCaptured, IntentStatus.Succeeded, IntentStatus.Canceled]
    case PartiallyCaptured => [IntentStatus.Succeeded]
    case Succeeded => [IntentStatus.PartiallyRefunded, IntentStatus.Refunded]
    case PartiallyRefunded => [IntentStatus.Refunded, IntentStatus.PartiallyRefunded]
    case _ => []
  }

  function AttemptTransitions(from: AttemptStatus): seq<AttemptStatus> {
    match from
    case Created => [AttemptStatus.Submitting, AttemptStatus.Expired]
    case Submitting =>
      [AttemptStatus.Submitted, AttemptStatus.RequiresAction, AttemptStatus.Succeeded, AttemptStatus.Failed,
       AttemptStatus.Indeterminate]
    case Submitted =>
      [AttemptStatus.Succeeded, AttemptStatus.Failed, AttemptStatus.Indeterminate, AttemptStatus.Expired]
    case RequiresAction => [AttemptStatus.Submitted, AttemptStatus.Expired]
    case Indeterminate => [AttemptStatus.Succeeded, AttemptStatus.Failed]
    case _ => []
  }

  function RefundTransitions(from: RefundStatus): seq<RefundStatus> {
    match from
    case Created => [RefundStatus.Processing, RefundStatus.Canceled]
    case Processing => [RefundStatus.Succeeded, RefundStatus.Failed, RefundStatus.Indeterminate]
    case Indeterminate => [RefundStatus.Succeeded, RefundStatus.Failed]
    case _ => []
  }

  function PayoutTransitions(from: PayoutStatus): seq<PayoutStatus> {
    match from
    case Requested => [PayoutStatus.InTransit, PayoutStatus.Failed]
    case InTransit => [PayoutStatus.Paid, PayoutStatus.Failed, PayoutStatus.Indeterminate]
    case Indeterminate => [PayoutStatus.Paid, PayoutStatus.Failed]
    case _ => []
  }

  function DisputeTransitions(from: DisputeStatus): seq<DisputeStatus> {
    match from
    case Open => [UnderReview, Won, Lost]
    case UnderReview => [Won, Lost]
    case _ => []
  }

  predicate CanTransition<S(==)>(transitions: S -> seq<S>, from: S, to: S) {
    to in transitions(from)
  }

  predicate Terminal<S>(transitions: S -> seq<S>, s: S) {
    transitions(s) == []
  }

  /** The successive statuses of a row. */
  ghost predicate History<S>(transitions: S -> seq<S>, statuses: seq<S>) {
    forall i :: 0 <= i < |statuses| - 1 ==> CanTransition(transitions, statuses[i], statuses[i + 1])
  }

  /** A row in a terminal status has no later one. */
  lemma {:induction false} TerminalIsLast<S>(transitions: S -> seq<S>, statuses: seq<S>, i: nat)
    requires History(transitions, statuses) && i < |statuses| && Terminal(transitions, statuses[i])
    ensures i == |statuses| - 1
  {
    assert i < |statuses| - 1 ==> CanTransition(transitions, statuses[i], statuses[i + 1]);
  }

  lemma {:induction false} Climbs<S>(transitions: S -> seq<S>, rank: S -> int, statuses: seq<S>, i: nat, j: nat)
    requires forall s, t :: CanTransition(transitions, s, t) ==> rank(s) < rank(t)
    requires History(transitions, statuses) && i < j < |statuses|
    ensures rank(statuses[i]) < rank(statuses[j])
  {
    assert CanTransition(transitions, statuses[j - 1], statuses[j]);
    if i < j - 1 {
      Climbs(transitions, rank, statuses, i, j - 1);
    }
  }

  function RefundRank(s: RefundStatus): int {
    match s
    case Created => 0
    case Processing => 1
    case Indeterminate => 2
    case _ => 3
  }

  function PayoutRank(s: PayoutStatus): int {
    match s
    case Requested => 0
    case InTransit => 1
    case Indeterminate => 2
    case _ => 3
  }

  function DisputeRank(s: DisputeStatus): int {
    match s
    case Open => 0
    case UnderReview => 1
    case _ => 2
  }

  /** No refund, payout or dispute is ever twice in one status. */
  lemma {:induction false} NoStatusRecurs(r: seq<RefundStatus>, p: seq<PayoutStatus>, d: seq<DisputeStatus>, i: nat, j: nat)
    requires History(RefundTransitions, r) && History(PayoutTransitions, p) && History(DisputeTransitions, d)
    requires i < j
    ensures j < |r| ==> r[i] != r[j]
    ensures j < |p| ==> p[i] != p[j]
    ensures j < |d| ==> d[i] != d[j]
  {
    if j < |r| {
      Climbs(RefundTransitions, RefundRank, r, i, j);
    }
    if j < |p| {
      Climbs(PayoutTransitions, PayoutRank, p, i, j);
    }
    if j < |d| {
      Climbs(DisputeTransitions, DisputeRank, d, i, j);
    }
  }

  /** From which statuses an outcome can be recorded. */
  lemma {:induction false} OutcomesAreLegalIff(a: AttemptStatus, r: RefundStatus, p: PayoutStatus, d: DisputeStatus)
    ensures CanTransition(AttemptTransitions, a, AttemptStatus.Succeeded) <==> a.Submitting? || a.Submitted? || a.Indeterminate?
    ensures CanTransition(AttemptTransitions, a, AttemptStatus.Failed) <==> a.Submitting? || a.Submitted? || a.Indeterminate?
    ensures CanTransition(RefundTransitions, r, RefundStatus.Succeeded) <==> r.Processing? || r.Indeterminate?
    ensures CanTransition(RefundTransitions, r, RefundStatus.Failed) <==> r.Processing? || r.Indeterminate?
    ensures CanTransition(PayoutTransitions, p, Paid) <==> p.InTransit? || p.Indeterminate?
    ensures CanTransition(PayoutTransitions, p, PayoutStatus.Failed) <==> p.Requested? || p.InTransit? || p.Indeterminate?
    ensures CanTransition(DisputeTransitions, d, Won) <==> d.Open? || d.UnderReview?
    ensures CanTransition(DisputeTransitions, d, Lost) <==> d.Open? || d.UnderReview?
  {
  }

  /** Which statuses are final. */
  lemma {:induction false} FinalIff(a: AttemptStatus, r: RefundStatus, p: PayoutStatus, d: DisputeStatus)
    ensures Terminal(AttemptTransitions, a) <==> a.Succeeded? || a.Failed? || a.Expired?
    ensures Terminal(RefundTransitions, r) <==> r.Succeeded? || r.Failed? || r.Canceled?
    ensures Terminal(PayoutTransitions, p) <==> p.Paid? || p.Failed?
    ensures Terminal(DisputeTransitions, d) <==> d.Won? || d.Lost?
  {
  }
}
