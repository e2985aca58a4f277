/**
 * Monetary adjustments of reconciliation cases with a second pair of eyes
 * (packages/reconciliation/src/adjustments.ts), over every race of proposals, approvals,
 * rejections and documentary resolutions. AdjustmentLedger.dfy makes their postings on
 * the ledger.
 */
module Adjustments {
  import opened Prelude
  import opened Money
  import DecimalText

  datatype Actor = User(id: string) | Machine

  datatype CaseStatus = Open | Acknowledged | Resolved

  datatype Status = Proposed | Applied | Rejected

  datatype Adjustment = Adjustment(
    caseId: nat,
    amount: int,
    currency: Currency,
    debitDifferences: bool,
    second: bool,
    proposer: string,
    status: Status,
    decider: Option<string>)

  /** A posted adjustment; its key is the adjustment's. */
  datatype Posting = Posting(adjustment: nat, amount: int, currency: Currency, debitDifferences: bool)

  /** An approval between its first read and its posting. */
  datatype Approval = Approval(adjustment: nat, approver: string)

  datatype Desk = Desk(
    threshold: int,
    cases: seq<CaseStatus>,
    adjustments: seq<Adjustment>,
    postings: seq<Posting>,
    approvals: seq<Approval>)

  datatype Proposal = Proposal(caseId: nat, amount: int, currency: Currency, debitDifferences: bool)

  datatype Step =
    | OpenCase
    | AcknowledgeCase(k: nat)
    | ResolveCase(k: nat)
    | Propose(proposal: Proposal, actor: Actor)
    | ReadForApproval(a: nat, actor: Actor)
    | PostApproval(p: nat)
    | Reject(a: nat, note: string, actor: Actor)

  datatype Error =
    | HumanActorRequired
    | NotFound
    | InvalidTransition
    | SelfApproval
    | AdjustmentExists

  predicate Human(actor: Actor) {
    actor.User? && actor.id != ""
  }

  predicate HasActive(adjustments: seq<Adjustment>, k: nat) {
    exists a :: 0 <= a < |adjustments| && adjustments[a].caseId == k && !adjustments[a].status.Rejected?
  }

  predicate PostedFor(postings: seq<Posting>, a: nat) {
    exists i :: 0 <= i < |postings| && postings[i].adjustment == a
  }

  function ProposalError(d: Desk, p: Proposal, actor: Actor): Option<Error> {
    if !Human(actor) then Some(HumanActorRequired)
    else if p.amount <= 0 then Some(InvalidTransition)
    else if p.caseId >= |d.cases| then Some(NotFound)
    else if d.cases[p.caseId].Resolved? then Some(InvalidTransition)
    else if HasActive(d.adjustments, p.caseId) then Some(AdjustmentExists)
    else None
  }

  function Proposes(d: Desk, p: Proposal, actor: Actor): Adjustment
    requires actor.User?
  {
    Adjustment(p.caseId, p.amount, p.currency, p.debitDifferences, p.amount >= d.threshold, actor.id, Proposed, None)
  }

  /** The checks that approve makes on its first read. */
  function ApprovalError(d: Desk, a: nat, actor: Actor): Option<Error> {
    if !Human(actor) then Some(HumanActorRequired)
    else if a >= |d.adjustments| then Some(NotFound)
    else if !d.adjustments[a].status.Proposed? then Some(InvalidTransition)
    else if d.adjustments[a].second && actor.id == d.adjustments[a].proposer then Some(SelfApproval)
    else None
  }

  /** The posting, whose hook checks the status again and resolves the case. */
  function Apply(d: Desk, a: nat, approver: string): Desk {
    if a >= |d.adjustments| || PostedFor(d.postings, a) || !d.adjustments[a].status.Proposed? then d
    else
      var row := d.adjustments[a];
      d.(adjustments := d.adjustments[a := row.(status := Applied, decider := Some(approver))],
         cases := if row.caseId < |d.cases| then d.cases[row.caseId := Resolved] else d.cases,
         postings := d.postings + [Posting(a, row.amount, row.currency, row.debitDifferences)])
  }

  function RejectionError(d: Desk, a: nat, note: string, actor: Actor): Option<Error> {
    if !Human(actor) then Some(HumanActorRequired)
    else if DecimalText.Trim(note) == "" then Some(InvalidTransition)
    else if a >= |d.adjustments| then Some(NotFound)
    else if !d.adjustments[a].status.Proposed? then Some(InvalidTransition)
    else None
  }

  function Next(d: Desk, step: Step): Desk {
    match step
    case OpenCase => d.(cases := d.cases + [Open])
    case AcknowledgeCase(k) => if k < |d.cases| && d.cases[k].Open? then d.(cases := d.cases[k := Acknowledged]) else d
    case ResolveCase(k) => if k < |d.cases| then d.(cases := d.cases[k := Resolved]) else d
    case Propose(p, actor) =>
      if ProposalError(d, p, actor).Some? then d else d.(adjustments := d.adjustments + [Proposes(d, p, actor)])
    case ReadForApproval(a, actor) =>
      if ApprovalError(d, a, actor).Some? then d else d.(approvals := d.approvals + [Approval(a, actor.id)])
    case PostApproval(p) => if p < |d.approvals| then Apply(d, d.approvals[p].adjustment, d.approvals[p].approver) else d
    case Reject(a, note, actor) =>
      if RejectionError(d, a, note, actor).Some? then d
      else d.(adjustments := d.adjustments[a := d.adjustments[a].(status := Rejected, decider := Some(actor.id))])
  }

  function Run(threshold: int, steps: seq<Step>): Desk {
    if steps == [] then Desk(threshold, [], [], [], []) else Next(Run(threshold, steps[..|steps| - 1]), steps[|steps| - 1])
  }

  /** What an adjustment recognises in a currency, up or down, once it is applied. */
  function AppliedIn(c: Currency): Adjustment -> int {
    (a: Adjustment) =>
      if !a.status.Applied? || a.currency != c then 0 else if a.debitDifferences then a.amount else -a.amount
  }

  // -------------------------------------------------------------- invariants

  ghost predicate RowOk(d: Desk, a: nat)
    requires a < |d.adjustments|
  {
    var row := d.adjustments[a];
    && row.amount > 0 && row.proposer != "" && row.caseId < |d.cases|
    && (row.second <==> row.amount >= d.threshold)
    && (row.status.Proposed? <==> row.decider.None?)
    && (row.decider.Some? ==> row.decider.value != "")
    && (row.status.Applied? <==> PostedFor(d.postings, a))
    && (row.status.Applied? && row.second ==> row.decider != Some(row.proposer))
    && (row.status.Applied? ==> d.cases[row.caseId].Resolved?)
  }

  ghost predicate ApprovalOk(d: Desk, t: Approval) {
    && t.adjustment < |d.adjustments| && t.approver != ""
    && (d.adjustments[t.adjustment].second ==> t.approver != d.adjustments[t.adjustment].proposer)
  }

  ghost predicate RowsOk(d: Desk) {
    forall a :: 0 <= a < |d.adjustments| ==> RowOk(d, a)
  }

  ghost predicate ApprovalsOk(d: Desk) {
    forall p :: 0 <= p < |d.approvals| ==> ApprovalOk(d, d.approvals[p])
  }

  /** A posting is of its adjustment as it was proposed. */
  predicate PostingOk(adjustments: seq<Adjustment>, p: Posting) {
    && p.adjustment < |adjustments|
    && var row := adjustments[p.adjustment];
       p.amount == row.amount && p.currency == row.currency && p.debitDifferences == row.debitDifferences
  }

  ghost predicate PostingsOk(d: Desk) {
    && (forall i :: 0 <= i < |d.postings| ==> PostingOk(d.adjustments, d.postings[i]))
    && forall i, j :: 0 <= i < j < |d.postings| ==> d.postings[i].adjustment != d.postings[j].adjustment
  }

  /** One adjustment of a case that is not rejected. */
  ghost predicate OneActive(adjustments: seq<Adjustment>) {
    forall a, b :: 0 <= a < b < |adjustments| && !adjustments[a].status.Rejected? && !adjustments[b].status.Rejected? ==>
      adjustments[a].caseId != adjustments[b].caseId
  }

  ghost predicate Inv(d: Desk) {
    RowsOk(d) && ApprovalsOk(d) && PostingsOk(d) && OneActive(d.adjustments)
  }

  lemma {:induction false} CasesKeepInv(d: Desk, step: Step)
    requires Inv(d) && (step.OpenCase? || step.AcknowledgeCase? || step.ResolveCase?)
    ensures Inv(Next(d, step))
  {
    var t := Next(d, step);
    forall a | 0 <= a < |t.adjustments| ensures RowOk(t, a) {
      assert RowOk(d, a);
    }
    forall p | 0 <= p < |t.approvals| ensures ApprovalOk(t, t.approvals[p]) {
      assert ApprovalOk(d, d.approvals[p]);
    }
  }

  lemma {:induction false} ReadKeepsInv(d: Desk, a: nat, actor: Actor)
    requires Inv(d)
    ensures Inv(Next(d, ReadForApproval(a, actor)))
  {
    var t := Next(d, ReadForApproval(a, actor));
    forall b | 0 <= b < |t.adjustments| ensures RowOk(t, b) {
      assert RowOk(d, b);
    }
    forall p | 0 <= p < |t.approvals| ensures ApprovalOk(t, t.approvals[p]) {
      if p < |d.approvals| {
        assert ApprovalOk(d, d.approvals[p]);
      }
    }
  }

  lemma {:induction false} ProposeKeepsInv(d: Desk, p: Proposal, actor: Actor)
    requires Inv(d)
    ensures Inv(Next(d, Propose(p, actor)))
  {
    var t := Next(d, Propose(p, actor));
    if ProposalError(d, p, actor).None? {
      var row := Proposes(d, p, actor);
      forall a | 0 <= a < |t.adjustments| ensures RowOk(t, a) {
        if a < |d.adjustments| {
          assert RowOk(d, a);
        } else {
          assert !PostedFor(d.postings, a);
        }
      }
      forall k | 0 <= k < |t.approvals| ensures ApprovalOk(t, t.approvals[k]) {
        assert ApprovalOk(d, d.approvals[k]);
      }
      assert forall a :: 0 <= a < |d.adjustments| && d.adjustments[a].caseId == p.caseId ==> d.adjustments[a].status.Rejected?;
    }
  }

  lemma {:induction false} RejectKeepsInv(d: Desk, a: nat, note: string, actor: Actor)
    requires Inv(d)
    ensures Inv(Next(d, Reject(a, note, actor)))
  {
    var t := Next(d, Reject(a, note, actor));
    if RejectionError(d, a, note, actor).None? {
      forall b | 0 <= b < |t.adjustments| ensures RowOk(t, b) {
        assert RowOk(d, b);
      }
      forall p | 0 <= p < |t.approvals| ensures ApprovalOk(t, t.approvals[p]) {
        assert ApprovalOk(d, d.approvals[p]);
      }
    }
  }

  lemma {:induction false} PostedPush(postings: seq<Posting>, p: Posting, b: nat)
    ensures PostedFor(postings + [p], b) <==> PostedFor(postings, b) || p.adjustment == b
  {
    var all := postings + [p];
    if PostedFor(postings, b) {
      var i :| 0 <= i < |postings| && postings[i].adjustment == b;
      assert all[i].adjustment == b;
    }
    assert all[|postings|] == p;
  }

  lemma {:induction false} ApplyKeepsRows(d: Desk, a: nat, approver: string)
    requires Inv(d) && ApprovalOk(d, Approval(a, approver))
    ensures RowsOk(Apply(d, a, approver)) && PostingsOk(Apply(d, a, approver)) && OneActive(Apply(d, a, approver).adjustments)
  {
    var t := Apply(d, a, approver);
    if t != d {
      assert RowOk(d, a);
      forall b | 0 <= b < |t.adjustments| ensures RowOk(t, b) {
        assert RowOk(d, b);
        PostedPush(d.postings, t.postings[|d.postings|], b);
      }
    }
  }

  lemma {:induction false} PostKeepsInv(d: Desk, p: nat)
    requires Inv(d)
    ensures Inv(Next(d, PostApproval(p)))
  {
    if p < |d.approvals| {
      var a, approver := d.approvals[p].adjustment, d.approvals[p].approver;
      assert ApprovalOk(d, d.approvals[p]);
      ApplyKeepsRows(d, a, approver);
      var t := Apply(d, a, approver);
      forall k | 0 <= k < |t.approvals| ensures ApprovalOk(t, t.approvals[k]) {
        assert ApprovalOk(d, d.approvals[k]);
      }
    }
  }

  lemma {:induction false} RunKeepsInv(threshold: int, steps: seq<Step>)
    ensures Inv(Run(threshold, steps)) && Run(threshold, steps).threshold == threshold
  {
    if steps != [] {
      var before, last := Run(threshold, steps[..|steps| - 1]), steps[|steps| - 1];
      RunKeepsInv(threshold, steps[..|steps| - 1]);
      match last
      case Propose(p, actor) => ProposeKeepsInv(before, p, actor);
      case ReadForApproval(a, actor) => ReadKeepsInv(before, a, actor);
      case PostApproval(p) => PostKeepsInv(before, p);
      case Reject(a, note, actor) => RejectKeepsInv(before, a, note, actor);
      case _ => CasesKeepInv(before, last);
    }
  }

  // ------------------------------------------------------------ main results

  /**
   * Over every race: an adjustment is applied exactly when its posting was made, as it
   * was proposed and once; an applied one at or above the threshold was approved by
   * somebody other than its proposer; and its case is resolved.
   */
  lemma {:induction false} FourEyes(threshold: int, steps: seq<Step>, a: nat)
    requires a < |Run(threshold, steps).adjustments|
    ensures var d := Run(threshold, steps);
            var row := d.adjustments[a];
            && (row.status.Applied? <==> PostedFor(d.postings, a))
            && (forall i :: 0 <= i < |d.postings| ==> PostingOk(d.adjustments, d.postings[i]))
            && (forall i, j :: 0 <= i < j < |d.postings| ==> d.postings[i].adjustment != d.postings[j].adjustment)
            && (row.status.Applied? ==>
                  && row.decider.Some? && row.proposer != "" && row.decider.value != ""
                  && (row.amount >= threshold ==> row.decider.value != row.proposer)
                  && row.caseId < |d.cases| && d.cases[row.caseId].Resolved?)
  {
    RunKeepsInv(threshold, steps);
    assert RowOk(Run(threshold, steps), a);
  }

  /**
   * An approval that has read its adjustment takes effect exactly when it then finds it
   * proposed, over every race: the adjustment is applied, posted and its case resolved, or
   * nothing changes.
   */
  lemma {:induction false} ApprovalTakesEffectIff(threshold: int, steps: seq<Step>, p: nat)
    requires p < |Run(threshold, steps).approvals|
    ensures var d := Run(threshold, steps);
            var a := d.approvals[p].adjustment;
            && a < |d.adjustments| && d.adjustments[a].caseId < |d.cases|
            && var row := d.adjustments[a];
            Next(d, PostApproval(p)) ==
            if row.status.Proposed? then
              d.(adjustments := d.adjustments[a := row.(status := Applied, decider := Some(d.approvals[p].approver))],
                 cases := d.cases[row.caseId := Resolved],
                 postings := d.postings + [Posting(a, row.amount, row.currency, row.debitDifferences)])
            else d
  {
    RunKeepsInv(threshold, steps);
    var d := Run(threshold, steps);
    assert ApprovalOk(d, d.approvals[p]) && RowOk(d, d.approvals[p].adjustment);
  }

  ghost predicate DecidedStand(s: seq<Adjustment>, t: seq<Adjustment>) {
    |s| <= |t| && forall a :: 0 <= a < |s| && !s[a].status.Proposed? ==> t[a] == s[a]
  }

  /** Each adjustment is decided once: what was applied or rejected never changes again. */
  lemma {:induction false} DecidedOnce(threshold: int, steps: seq<Step>, more: seq<Step>)
    ensures DecidedStand(Run(threshold, steps).adjustments, Run(threshold, steps + more).adjustments)
  {
    if more == [] {
      assert steps + more == steps;
    } else {
      var n := |more| - 1;
      DecidedOnce(threshold, steps, more[..n]);
      assert (steps + more)[..|steps + more| - 1] == steps + more[..n];
      NextKeepsDecided(Run(threshold, steps + more[..n]), more[n]);
    }
  }

  lemma {:induction false} NextKeepsDecided(d: Desk, step: Step)
    ensures DecidedStand(d.adjustments, Next(d, step).adjustments)
  {
  }

  // ------------------------------------------------------------- the service

  class CaseAdjustmentService {
    const threshold: int
    var cases: seq<CaseStatus>
    var adjustments: seq<Adjustment>
    var postings: seq<Posting>
    ghost var approvals: seq<Approval>

    constructor (threshold: int)
      ensures State() == Run(threshold, [])
    {
      this.threshold := threshold;
      cases, adjustments, postings, approvals := [], [], [], [];
    }

    ghost function State(): Desk
      reads this
    {
      Desk(threshold, cases, adjustments, postings, approvals)
    }

    method ProposeAdjustment(p: Proposal, actor: Actor) returns (r: Result<nat, Error>)
      modifies this
      ensures State() == Next(old(State()), Propose(p, actor))
      ensures r == Err(HumanActorRequired) <==> actor.Machine? || actor.id == ""
      ensures r == Err(NotFound) <==> !(actor.Machine? || actor.id == "") && p.amount > 0 && p.caseId >= |old(cases)|
      ensures r == Err(InvalidTransition) <==>
                && !(actor.Machine? || actor.id == "")
                && (p.amount <= 0 || (p.caseId < |old(cases)| && old(cases)[p.caseId].Resolved?))
      ensures r == Err(AdjustmentExists) <==>
                && !(actor.Machine? || actor.id == "") && p.amount > 0
                && p.caseId < |old(cases)| && !old(cases)[p.caseId].Resolved?
                && exists a :: 0 <= a < |old(adjustments)|
                               && old(adjustments)[a].caseId == p.caseId && !old(adjustments)[a].status.Rejected?
      ensures r != Err(SelfApproval)
      ensures r.Err? ==> State() == old(State())
      ensures r.Ok? ==>
                && r.value == |old(adjustments)| && cases == old(cases) && postings == old(postings)
                && adjustments == old(adjustments) + [Adjustment(p.caseId, p.amount, p.currency, p.debitDifferences,
                                                                 p.amount >= threshold, actor.id, Proposed, None)]
    {
      if !Human(actor) {
        return Err(HumanActorRequired);
      }
      if p.amount <= 0 {
        return Err(InvalidTransition);
      }
      if p.caseId >= |cases| {
        return Err(NotFound);
      }
      if cases[p.caseId].Resolved? {
        return Err(InvalidTransition);
      }
      if HasActive(adjustments, p.caseId) {
        return Err(AdjustmentExists);
      }
      r := Ok(|adjustments|);
      var second := p.amount >= threshold;
      adjustments := adjustments
        + [Adjustment(p.caseId, p.amount, p.currency, p.debitDifferences, second, actor.id, Proposed, None)];
    }

    /** An approval with nobody in between applies the adjustment or is refused. */
    method Approve(a: nat, actor: Actor) returns (r: Result<(), Error>)
      requires Inv(State())
      modifies this
      ensures r == Err(HumanActorRequired) <==> actor.Machine? || actor.id == ""
      ensures r == Err(NotFound) <==> !(actor.Machine? || actor.id == "") && a >= |old(adjustments)|
      ensures r == Err(InvalidTransition) <==>
                !(actor.Machine? || actor.id == "") && a < |old(adjustments)| && !old(adjustments)[a].status.Proposed?
      ensures r == Err(SelfApproval) <==>
                && !(actor.Machine? || actor.id == "") && a < |old(adjustments)| && old(adjustments)[a].status.Proposed?
                && old(adjustments)[a].amount >= threshold && actor.id == old(adjustments)[a].proposer
      ensures r != Err(AdjustmentExists)
      ensures r.Err? ==> State() == old(State())
      ensures r.Ok? ==>
                && State() == Next(Next(old(State()), ReadForApproval(a, actor)), PostApproval(|old(approvals)|))
                && var row := old(adjustments)[a];
                && adjustments == old(adjustments)[a := row.(status := Applied, decider := Some(actor.id))]
                && postings == old(postings) + [Posting(a, row.amount, row.currency, row.debitDifferences)]
                && row.caseId < |old(cases)| && cases == old(cases)[row.caseId := Resolved]
    {
      if !Human(actor) {
        return Err(HumanActorRequired);
      }
      if a >= |adjustments| {
        return Err(NotFound);
      }
      var row := adjustments[a];
      if !row.status.Proposed? {
        return Err(InvalidTransition);
      }
      assert RowOk(State(), a);
      if row.second && actor.id == row.proposer {
        return Err(SelfApproval);
      }
      approvals := approvals + [Approval(a, actor.id)];
      adjustments := adjustments[a := row.(status := Applied, decider := Some(actor.id))];
      cases := if row.caseId < |cases| then cases[row.caseId := Resolved] else cases;
      postings := postings + [Posting(a, row.amount, row.currency, row.debitDifferences)];
      return Ok(());
    }

    method RejectAdjustment(a: nat, note: string, actor: Actor) returns (r: Result<(), Error>)
      modifies this
      ensures State() == Next(old(State()), Reject(a, note, actor))
      ensures r == Err(HumanActorRequired) <==> actor.Machine? || actor.id == ""
      ensures r == Err(NotFound) <==>
                !(actor.Machine? || actor.id == "") && DecimalText.Trim(note) != "" && a >= |old(adjustments)|
      ensures r == Err(InvalidTransition) <==>
                && !(actor.Machine? || actor.id == "")
                && (DecimalText.Trim(note) == "" || (a < |old(adjustments)| && !old(adjustments)[a].status.Proposed?))
      ensures r != Err(AdjustmentExists) && r != Err(SelfApproval)
      ensures r.Err? ==> State() == old(State())
      ensures r.Ok? ==>
                && cases == old(cases) && postings == old(postings)
                && adjustments == old(adjustments)[a := old(adjustments)[a].(status := Rejected, decider := Some(actor.id))]
    {
      if !Human(actor) {
        return Err(HumanActorRequired);
      }
      if DecimalText.Trim(note) == "" {
        return Err(InvalidTransition);
      }
      if a >= |adjustments| {
        return Err(NotFound);
      }
      if !adjustments[a].status.Proposed? {
        return Err(InvalidTransition);
      }
      adjustments := adjustments[a := adjustments[a].(status := Rejected, decider := Some(actor.id))];
      return Ok(());
    }
  }
}
