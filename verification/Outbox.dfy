/**
 * The outbox as a protocol of leases between any number of relays
 * (packages/outbox/src/relay.ts, packages/outbox/src/replay.ts).
 *
 * A claim is a row update; publishing and the update that records its result are later,
 * separate steps, and a crash may come between any two of them.
 */
module Outbox {
  import opened Prelude

  datatype Status = Pending | Delivered | Dead

  /**
   * An outbox row. The last four fields are history, kept to state properties:
   * how often the row was replayed; since the last replay, the publishes made under
   * claims of this and of earlier rounds, and the claims that were in hand when it
   * happened; and whether a publish ever returned.
   */
  datatype Row = Row(
    status: Status, attempts: nat, due: nat, wellFormed: bool,
    round: nat, published: nat, late: nat, inherited: nat, returned: bool)

  datatype Phase = Claimed | Returned | Threw

  /** A claimed event in some relay's hands, with the attempt number it was given. */
  datatype Task = Task(row: nat, attempt: nat, round: nat, phase: Phase)

  datatype Options = Options(maxAttempts: nat, lease: nat)

  datatype Queue = Queue(rows: seq<Row>, tasks: seq<Task>, now: nat)

  datatype Step =
    | Tick(ms: nat)
    | Enqueue(wellFormed: bool)
    | Sweep
    | Claim(r: nat)
    | Publish(k: nat, ok: bool)
    | Poison(k: nat)
    | MarkDelivered(k: nat)
    | MarkFailed(k: nat, backoff: nat)
    | Crash(k: nat)
    | Replay(r: nat)

  function NewRow(wellFormed: bool, now: nat): Row {
    Row(Pending, 0, now, wellFormed, 0, 0, 0, 0, false)
  }

  predicate Eligible(row: Row, o: Options, now: nat) {
    row.status.Pending? && row.attempts < o.maxAttempts && row.due <= now
  }

  predicate Exhausted(row: Row, o: Options, now: nat) {
    row.status.Pending? && row.attempts >= o.maxAttempts && row.due <= now
  }

  function Swept(row: Row, o: Options, now: nat): Row {
    if Exhausted(row, o, now) then row.(status := Dead) else row
  }

  function SweptAll(rows: seq<Row>, o: Options, now: nat): (swept: seq<Row>)
    ensures |swept| == |rows| && forall i :: 0 <= i < |rows| ==> swept[i] == Swept(rows[i], o, now)
  {
    seq(|rows|, i requires 0 <= i < |rows| => Swept(rows[i], o, now))
  }

  /** An update guarded by `status = 'pending'`. */
  function IfPending(row: Row, updated: Row): Row {
    if row.status.Pending? then updated else row
  }

  function ClaimedRow(row: Row, o: Options, now: nat): Row {
    row.(attempts := row.attempts + 1, due := now + o.lease)
  }

  /** The update after a publish or its mark threw, on the attempt number the claim returned. */
  function FailedRow(row: Row, attempt: nat, o: Options, due: nat): Row {
    IfPending(row, if attempt >= o.maxAttempts then row.(status := Dead) else row.(due := due))
  }

  function PublishedRow(row: Row, round: nat, ok: bool): Row {
    row.(published := if round == row.round then row.published + 1 else row.published,
         late := if round == row.round then row.late else row.late + 1,
         returned := row.returned || ok)
  }

  /** Tasks on row r of the given round that have not published yet. */
  function InHand(r: nat, round: nat): Task -> int {
    (t: Task) => if t.row == r && t.round == round && t.phase.Claimed? then 1 else 0
  }

  /** Tasks on row r of an earlier round that have not published yet. */
  function StaleInHand(r: nat, round: nat): Task -> int {
    (t: Task) => if t.row == r && t.round != round && t.phase.Claimed? then 1 else 0
  }

  function Outstanding(q: Queue, r: nat, round: nat): int {
    Sum(q.tasks, InHand(r, round)) + Sum(q.tasks, StaleInHand(r, round))
  }

  function ReplayedRow(row: Row, now: nat, inherited: nat): Row {
    row.(status := Pending, attempts := 0, due := now,
         round := row.round + 1, published := 0, late := 0, inherited := inherited)
  }

  predicate Has(q: Queue, k: nat, phase: Phase) {
    k < |q.tasks| && q.tasks[k].phase == phase && q.tasks[k].row < |q.rows|
  }

  function Drop(q: Queue, k: nat): Queue
    requires k < |q.tasks|
  {
    q.(tasks := q.tasks[..k] + q.tasks[k + 1..])
  }

  function SetRow(q: Queue, r: nat, row: Row): Queue
    requires r < |q.rows|
  {
    q.(rows := q.rows[r := row])
  }

  /**
   * One atomic step; a step that is not possible changes nothing. The update to delivered
   * is inside the same try as the publish, so when it throws the event is marked as failed.
   */
  function Next(q: Queue, o: Options, step: Step): Queue {
    match step
    case Tick(ms) => q.(now := q.now + ms)
    case Enqueue(wellFormed) => q.(rows := q.rows + [NewRow(wellFormed, q.now)])
    case Sweep => q.(rows := SweptAll(q.rows, o, q.now))
    case Claim(r) =>
      if r < |q.rows| && Eligible(q.rows[r], o, q.now) then
        SetRow(q, r, ClaimedRow(q.rows[r], o, q.now))
          .(tasks := q.tasks + [Task(r, q.rows[r].attempts + 1, q.rows[r].round, Claimed)])
      else q
    case Publish(k, ok) =>
      if Has(q, k, Claimed) && q.rows[q.tasks[k].row].wellFormed then
        var t := q.tasks[k];
        SetRow(q, t.row, PublishedRow(q.rows[t.row], t.round, ok))
          .(tasks := q.tasks[k := t.(phase := if ok then Returned else Threw)])
      else q
    case Poison(k) =>
      if Has(q, k, Claimed) && !q.rows[q.tasks[k].row].wellFormed then
        var r := q.tasks[k].row;
        Drop(SetRow(q, r, IfPending(q.rows[r], q.rows[r].(status := Dead))), k)
      else q
    case MarkDelivered(k) =>
      if Has(q, k, Returned) then
        var r := q.tasks[k].row;
        Drop(SetRow(q, r, IfPending(q.rows[r], q.rows[r].(status := Delivered))), k)
      else q
    case MarkFailed(k, backoff) =>
      if Has(q, k, Threw) || Has(q, k, Returned) then
        var r := q.tasks[k].row;
        Drop(SetRow(q, r, FailedRow(q.rows[r], q.tasks[k].attempt, o, q.now + backoff)), k)
      else q
    case Crash(k) => if k < |q.tasks| then Drop(q, k) else q
    case Replay(r) =>
      if r < |q.rows| && q.rows[r].status.Dead? then
        OutstandingNonNegative(q.tasks, r, q.rows[r].round);
        SetRow(q, r, ReplayedRow(q.rows[r], q.now, Outstanding(q, r, q.rows[r].round)))
      else q
  }

  lemma {:induction false} OutstandingNonNegative(tasks: seq<Task>, r: nat, round: nat)
    ensures 0 <= Sum(tasks, InHand(r, round)) && 0 <= Sum(tasks, StaleInHand(r, round))
  {
    if tasks != [] {
      OutstandingNonNegative(tasks[..|tasks| - 1], r, round);
    }
  }

  function Run(q: Queue, o: Options, steps: seq<Step>): Queue {
    if steps == [] then q else Next(Run(q, o, steps[..|steps| - 1]), o, steps[|steps| - 1])
  }

  const EMPTY := Queue([], [], 0)

  // ------------------------------------------------------------- invariants

  ghost predicate RowInv(q: Queue, o: Options, r: nat)
    requires r < |q.rows|
  {
    var row := q.rows[r];
    && row.published + Sum(q.tasks, InHand(r, row.round)) <= row.attempts <= o.maxAttempts
    && row.late + Sum(q.tasks, StaleInHand(r, row.round)) <= row.inherited
    && (row.status.Delivered? ==> row.returned)
  }

  ghost predicate TaskInv(q: Queue, t: Task) {
    && t.row < |q.rows| && t.round <= q.rows[t.row].round
    && (t.phase.Returned? ==> q.rows[t.row].returned)
  }

  ghost predicate Inv(q: Queue, o: Options) {
    && (forall r :: 0 <= r < |q.rows| ==> RowInv(q, o, r))
    && (forall k :: 0 <= k < |q.tasks| ==> TaskInv(q, q.tasks[k]))
  }

  /** Rows that no task can point to have no tasks in hand. */
  lemma {:induction false} NoTasksBeyond(q: Queue, r: nat, round: nat)
    requires forall k :: 0 <= k < |q.tasks| ==> q.tasks[k].row != r
    ensures Sum(q.tasks, InHand(r, round)) == 0 && Sum(q.tasks, StaleInHand(r, round)) == 0
  {
    SumSame(q.tasks, InHand(r, round), _ => 0);
    SumSame(q.tasks, StaleInHand(r, round), _ => 0);
    SumZero(q.tasks);
  }

  /** After a replay every task in hand belongs to an earlier round. */
  lemma {:induction false} ReplayMakesStale(q: Queue, r: nat, round: nat)
    requires forall k :: 0 <= k < |q.tasks| && q.tasks[k].row == r ==> q.tasks[k].round <= round
    ensures Sum(q.tasks, InHand(r, round + 1)) == 0
    ensures Sum(q.tasks, StaleInHand(r, round + 1)) == Sum(q.tasks, InHand(r, round)) + Sum(q.tasks, StaleInHand(r, round))
  {
    SumSame(q.tasks, InHand(r, round + 1), _ => 0);
    SumZero(q.tasks);
    StaleSplits(q.tasks, r, round);
  }

  lemma {:induction false} StaleSplits(tasks: seq<Task>, r: nat, round: nat)
    requires forall k :: 0 <= k < |tasks| && tasks[k].row == r ==> tasks[k].round <= round
    ensures Sum(tasks, StaleInHand(r, round + 1)) == Sum(tasks, InHand(r, round)) + Sum(tasks, StaleInHand(r, round))
  {
    if tasks != [] {
      var front := tasks[..|tasks| - 1];
      assert forall k :: 0 <= k < |front| ==> front[k] == tasks[k];
      StaleSplits(front, r, round);
    }
  }

  /** What a step does to the claims in hand. */
  lemma {:induction false} ClaimAddsTask(q: Queue, o: Options, r: nat)
    requires r < |q.rows| && Eligible(q.rows[r], o, q.now)
    ensures Next(q, o, Claim(r)).tasks == q.tasks + [Task(r, q.rows[r].attempts + 1, q.rows[r].round, Claimed)]
  {
  }

  lemma {:induction false} PublishSetsTask(q: Queue, o: Options, k: nat, ok: bool)
    requires Has(q, k, Claimed) && q.rows[q.tasks[k].row].wellFormed
    ensures Next(q, o, Publish(k, ok)).tasks == q.tasks[k := q.tasks[k].(phase := if ok then Returned else Threw)]
  {
  }

  lemma {:induction false} MarkDropsTask(q: Queue, o: Options, step: Step)
    requires (step.Poison? || step.MarkDelivered? || step.MarkFailed? || step.Crash?) && Next(q, o, step) != q
    ensures step.k < |q.tasks| && Next(q, o, step).tasks == q.tasks[..step.k] + q.tasks[step.k + 1..]
  {
  }

  lemma {:induction false} NextKeepsTasks(q: Queue, o: Options, step: Step)
    requires Inv(q, o)
    ensures forall k :: 0 <= k < |Next(q, o, step).tasks| ==> TaskInv(Next(q, o, step), Next(q, o, step).tasks[k])
  {
    var t := Next(q, o, step);
    forall k | 0 <= k < |t.tasks| ensures TaskInv(t, t.tasks[k]) {
      if step.Claim? || step.Publish? {
        if k < |q.tasks| {
          assert TaskInv(q, q.tasks[k]);
        }
      } else if step.Poison? || step.MarkDelivered? || step.MarkFailed? || step.Crash? {
        DroppedTask(q, o, step, k);
      } else {
        assert TaskInv(q, q.tasks[k]);
      }
    }
  }

  lemma {:induction false} DroppedTask(q: Queue, o: Options, step: Step, k: nat)
    requires Inv(q, o) && (step.Poison? || step.MarkDelivered? || step.MarkFailed? || step.Crash?)
    requires k < |Next(q, o, step).tasks|
    ensures TaskInv(Next(q, o, step), Next(q, o, step).tasks[k])
  {
    var t := Next(q, o, step);
    if t != q && k >= step.k {
      assert t.tasks[k] == q.tasks[k + 1];
      assert TaskInv(q, q.tasks[k + 1]);
    } else {
      assert TaskInv(q, q.tasks[k]);
    }
  }

  lemma {:induction false} NextKeepsRow(q: Queue, o: Options, step: Step, r: nat)
    requires Inv(q, o) && r < |Next(q, o, step).rows|
    ensures RowInv(Next(q, o, step), o, r)
  {
    if r >= |q.rows| {
      NoTasksBeyond(q, r, 0);
    } else if step.Claim? || step.Publish? {
      ClaimsKeepRow(q, o, step, r);
    } else if step.Replay? {
      ReplayKeepsRow(q, o, step.r, r);
    } else if step.Tick? || step.Enqueue? || step.Sweep? {
      ClockKeepsRow(q, o, step, r);
    } else {
      OthersKeepRow(q, o, step, r);
    }
  }

  lemma {:induction false} ReplayKeepsRow(q: Queue, o: Options, s: nat, r: nat)
    requires Inv(q, o) && r < |q.rows|
    ensures RowInv(Next(q, o, Replay(s)), o, r)
  {
    assert RowInv(q, o, r);
    if s == r && q.rows[r].status.Dead? {
      ReplayMakesStale(q, r, q.rows[r].round);
    }
  }

  lemma {:induction false} ClockKeepsRow(q: Queue, o: Options, step: Step, r: nat)
    requires Inv(q, o) && r < |q.rows| && (step.Tick? || step.Enqueue? || step.Sweep?)
    ensures RowInv(Next(q, o, step), o, r)
  {
    assert RowInv(q, o, r);
  }

  lemma {:induction false} ClaimsKeepRow(q: Queue, o: Options, step: Step, r: nat)
    requires Inv(q, o) && r < |q.rows| && (step.Claim? || step.Publish?)
    ensures RowInv(Next(q, o, step), o, r)
  {
    assert RowInv(q, o, r);
    var round := q.rows[r].round;
    if step.Claim? {
      if step.r < |q.rows| && Eligible(q.rows[step.r], o, q.now) {
        var t := Task(step.r, q.rows[step.r].attempts + 1, q.rows[step.r].round, Claimed);
        ClaimAddsTask(q, o, step.r);
        SumPush(q.tasks, t, InHand(r, round));
        SumPush(q.tasks, t, StaleInHand(r, round));
      }
    } else if Has(q, step.k, Claimed) && q.rows[q.tasks[step.k].row].wellFormed {
      var t := q.tasks[step.k].(phase := if step.ok then Returned else Threw);
      PublishSetsTask(q, o, step.k, step.ok);
      SumSet(q.tasks, step.k, t, InHand(r, round));
      SumSet(q.tasks, step.k, t, StaleInHand(r, round));
    }
  }

  lemma {:induction false} MarkKeepsHistory(q: Queue, o: Options, step: Step, r: nat)
    requires Inv(q, o) && r < |q.rows| && (step.Poison? || step.MarkDelivered? || step.MarkFailed? || step.Crash?)
    ensures var t := Next(q, o, step);
            && |t.rows| == |q.rows| && (t.rows[r].status.Delivered? ==> t.rows[r].returned)
            && t.rows[r] == q.rows[r].(status := t.rows[r].status, due := t.rows[r].due)
  {
    assert RowInv(q, o, r);
    if step.k < |q.tasks| {
      assert TaskInv(q, q.tasks[step.k]);
    }
  }

  lemma {:induction false} DropKeepsRow(q: Queue, t: Queue, o: Options, r: nat, k: nat)
    requires r < |q.rows| && r < |t.rows| && RowInv(q, o, r) && k < |q.tasks|
    requires t.tasks == q.tasks[..k] + q.tasks[k + 1..]
    requires t.rows[r] == q.rows[r].(status := t.rows[r].status, due := t.rows[r].due)
    requires t.rows[r].status.Delivered? ==> t.rows[r].returned
    ensures RowInv(t, o, r)
  {
    SumRemove(q.tasks, k, InHand(r, q.rows[r].round));
    SumRemove(q.tasks, k, StaleInHand(r, q.rows[r].round));
  }

  lemma {:induction false} OthersKeepRow(q: Queue, o: Options, step: Step, r: nat)
    requires Inv(q, o) && r < |q.rows|
    requires step.Poison? || step.MarkDelivered? || step.MarkFailed? || step.Crash?
    ensures RowInv(Next(q, o, step), o, r)
  {
    assert RowInv(q, o, r);
    if Next(q, o, step) != q {
      MarkDropsTask(q, o, step);
      MarkKeepsHistory(q, o, step, r);
      DropKeepsRow(q, Next(q, o, step), o, r, step.k);
    }
  }

  lemma {:induction false} RunKeepsInv(q: Queue, o: Options, steps: seq<Step>)
    requires Inv(q, o)
    ensures Inv(Run(q, o, steps), o)
  {
    if steps != [] {
      var before, step := Run(q, o, steps[..|steps| - 1]), steps[|steps| - 1];
      RunKeepsInv(q, o, steps[..|steps| - 1]);
      NextKeepsTasks(before, o, step);
      forall r | 0 <= r < |Next(before, o, step).rows|
        ensures RowInv(Next(before, o, step), o, r)
      {
        NextKeepsRow(before, o, step, r);
      }
    }
  }

  // ----------------------------------------------------------- main results

  /**
   * On every run: attempts stay within the maximum; the publishes made since the last
   * replay under claims of the current round are at most the attempts; and publishes
   * made under older claims are at most the claims in hand when the replay happened.
   */
  lemma {:induction false} PublishesAreBounded(o: Options, steps: seq<Step>, r: nat)
    ensures var q := Run(EMPTY, o, steps);
            r < |q.rows| ==>
              var row := q.rows[r];
              && row.published <= row.attempts <= o.maxAttempts
              && row.late <= row.inherited
              && (row.inherited == 0 ==> row.published + row.late <= row.attempts)
  {
    RunKeepsInv(EMPTY, o, steps);
    var q := Run(EMPTY, o, steps);
    if r < |q.rows| {
      assert RowInv(q, o, r);
      OutstandingNonNegative(q.tasks, r, q.rows[r].round);
    }
  }

  // What a replay leaves behind: the claims that were in hand when it came.

  /** Every publish since the last replay is within the attempts. */
  predicate WithinAttempts(row: Row) {
    row.published + row.late <= row.attempts
  }

  ghost predicate BoundedAfter(q: Queue, o: Options, steps: seq<Step>, r: nat) {
    var t := Run(q, o, steps);
    r < |t.rows| && WithinAttempts(t.rows[r])
  }

  /** Some relay still holds an unpublished claim of row r. */
  ghost predicate InSomeHand(q: Queue, r: nat) {
    exists k :: 0 <= k < |q.tasks| && q.tasks[k].row == r && q.tasks[k].phase.Claimed?
  }

  lemma {:induction false} NoneInHand(tasks: seq<Task>, r: nat, round: nat)
    requires forall k :: 0 <= k < |tasks| && tasks[k].row == r ==> !tasks[k].phase.Claimed?
    ensures Sum(tasks, InHand(r, round)) == 0 && Sum(tasks, StaleInHand(r, round)) == 0
  {
    SumVanishes(tasks, InHand(r, round));
    SumVanishes(tasks, StaleInHand(r, round));
  }

  /** What only a replay of row r changes, and that a malformed row is never published. */
  ghost predicate Kept(q: Queue, t: Queue, r: nat)
    requires r < |q.rows|
  {
    && r < |t.rows|
    && t.rows[r].inherited == q.rows[r].inherited && t.rows[r].wellFormed == q.rows[r].wellFormed
    && (!q.rows[r].wellFormed ==> t.rows[r].published == q.rows[r].published && t.rows[r].late == q.rows[r].late)
  }

  lemma {:induction false} NextKeeps(q: Queue, o: Options, step: Step, r: nat)
    requires r < |q.rows| && step != Replay(r)
    ensures Kept(q, Next(q, o, step), r)
  {
  }

  lemma {:induction false} RunKeeps(q: Queue, o: Options, steps: seq<Step>, r: nat)
    requires r < |q.rows| && Replay(r) !in steps
    ensures Kept(q, Run(q, o, steps), r)
  {
    if steps != [] {
      var front, last := steps[..|steps| - 1], steps[|steps| - 1];
      assert last in steps;
      RunKeeps(q, o, front, r);
      NextKeeps(Run(q, o, front), o, last, r);
    }
  }

  lemma {:induction false} QuietReplayIsBounded(q: Queue, o: Options, r: nat, steps: seq<Step>)
    requires Inv(q, o) && r < |q.rows| && q.rows[r].status.Dead? && Replay(r) !in steps
    requires !q.rows[r].wellFormed || !InSomeHand(q, r)
    ensures BoundedAfter(Next(q, o, Replay(r)), o, steps, r)
  {
    var replayed := Next(q, o, Replay(r));
    var t := Run(replayed, o, steps);
    RunKeeps(replayed, o, steps, r);
    if q.rows[r].wellFormed {
      NoneInHand(q.tasks, r, q.rows[r].round);
      ReplayKeepsInv(q, o, r);
      RunKeepsInv(replayed, o, steps);
      assert RowInv(t, o, r);
      OutstandingNonNegative(t.tasks, r, t.rows[r].round);
    }
  }

  lemma {:induction false} ReplayKeepsInv(q: Queue, o: Options, r: nat)
    requires Inv(q, o)
    ensures Inv(Next(q, o, Replay(r)), o)
  {
    var t := Next(q, o, Replay(r));
    NextKeepsTasks(q, o, Replay(r));
    forall s | 0 <= s < |t.rows| ensures RowInv(t, o, s) {
      NextKeepsRow(q, o, Replay(r), s);
    }
  }

  lemma {:induction false} LatePublishExceeds(q: Queue, o: Options, r: nat, k: nat)
    requires r < |q.rows| && q.rows[r].status.Dead? && q.rows[r].wellFormed
    requires k < |q.tasks| && q.tasks[k].row == r && q.tasks[k].phase.Claimed?
    ensures !BoundedAfter(Next(q, o, Replay(r)), o, [Publish(k, true)], r)
  {
    var replayed := Next(q, o, Replay(r));
    assert [Publish(k, true)][..0] == [];
    assert Run(replayed, o, [Publish(k, true)]) == Next(replayed, o, Publish(k, true));
  }

  /**
   * When the plain bound holds: in any state that can be reached, replaying a dead row
   * keeps its publishes within its attempts on every continuation, until it is replayed
   * again, exactly when the row is never published or no relay still holds an unpublished
   * claim of it.
   */
  lemma {:induction false} ReplayKeepsBoundIff(o: Options, before: seq<Step>, q: Queue, r: nat)
    requires q == Run(EMPTY, o, before) && r < |q.rows| && q.rows[r].status.Dead?
    ensures (forall steps :: Replay(r) !in steps ==> BoundedAfter(Next(q, o, Replay(r)), o, steps, r))
       <==> !q.rows[r].wellFormed || !InSomeHand(q, r)
  {
    RunKeepsInv(EMPTY, o, before);
    if q.rows[r].wellFormed && InSomeHand(q, r) {
      var k :| 0 <= k < |q.tasks| && q.tasks[k].row == r && q.tasks[k].phase.Claimed?;
      LatePublishExceeds(q, o, r, k);
      assert !BoundedAfter(Next(q, o, Replay(r)), o, [Publish(k, true)], r);
      assert Replay(r) !in [Publish(k, true)];
    } else {
      forall steps | Replay(r) !in steps ensures BoundedAfter(Next(q, o, Replay(r)), o, steps, r) {
        QuietReplayIsBounded(q, o, r, steps);
      }
    }
  }

  /**
   * Counting every publish since the last replay the bound by attempts fails: a relay
   * whose lease ran out may publish after the row was swept and replayed.
   */
  lemma {:induction false} StalePublishExceedsAttempts(lease: nat)
    ensures var o := Options(1, lease);
            var steps := [Enqueue(true), Claim(0), Tick(lease), Sweep, Replay(0), Publish(0, true)];
            var rows := Run(EMPTY, o, steps).rows;
            |rows| == 1 && rows[0].attempts == 0 && rows[0].published + rows[0].late == 1
  {
    var o := Options(1, lease);
    var steps := [Enqueue(true), Claim(0), Tick(lease), Sweep, Replay(0), Publish(0, true)];
    RunSteps(o, steps);
    StaleClaim(lease);
    StaleReplay(lease);
    var row := Row(Pending, 0, lease, true, 1, 0, 0, 1, false);
    assert Next(Queue([row], [Task(0, 1, 0, Claimed)], lease), o, Publish(0, true)).rows == [PublishedRow(row, 0, true)];
  }

  /** The only attempt is claimed and its lease runs out. */
  lemma {:induction false} StaleClaim(lease: nat)
    ensures var o := Options(1, lease);
            Next(Next(Next(EMPTY, o, Enqueue(true)), o, Claim(0)), o, Tick(lease))
            == Queue([Row(Pending, 1, lease, true, 0, 0, 0, 0, false)], [Task(0, 1, 0, Claimed)], lease)
  {
    var o := Options(1, lease);
    var q1 := Next(EMPTY, o, Enqueue(true));
    assert q1 == Queue([NewRow(true, 0)], [], 0);
    assert Next(q1, o, Claim(0)) == Queue([ClaimedRow(NewRow(true, 0), o, 0)], [Task(0, 1, 0, Claimed)], 0);
  }

  /** The row is swept and replayed while the relay still holds its event. */
  lemma {:induction false} StaleReplay(lease: nat)
    ensures var o := Options(1, lease);
            var q := Queue([Row(Pending, 1, lease, true, 0, 0, 0, 0, false)], [Task(0, 1, 0, Claimed)], lease);
            Next(Next(q, o, Sweep), o, Replay(0))
            == Queue([Row(Pending, 0, lease, true, 1, 0, 0, 1, false)], [Task(0, 1, 0, Claimed)], lease)
  {
    var o := Options(1, lease);
    var row := Row(Pending, 1, lease, true, 0, 0, 0, 0, false);
    var q := Queue([row], [Task(0, 1, 0, Claimed)], lease);
    var dead := Queue([row.(status := Dead)], [Task(0, 1, 0, Claimed)], lease);
    assert Next(q, o, Sweep) == dead;
    OneTask(dead, Task(0, 1, 0, Claimed));
  }

  lemma {:induction false} OneTask(q: Queue, t: Task)
    requires q.tasks == [t] && t.phase.Claimed?
    ensures Outstanding(q, t.row, t.round) == 1
  {
    assert [t] == [] + [t];
    SumPush([], t, InHand(t.row, t.round));
    SumPush([], t, StaleInHand(t.row, t.round));
  }

  lemma {:induction false} RunSteps(o: Options, steps: seq<Step>)
    requires |steps| == 6
    ensures Run(EMPTY, o, steps)
         == Next(Next(Next(Next(Next(Next(EMPTY, o, steps[0]), o, steps[1]), o, steps[2]), o, steps[3]), o, steps[4]), o, steps[5])
  {
    assert forall k :: 0 <= k < 6 ==> steps[..k + 1][..k] == steps[..k] && steps[..k + 1][k] == steps[k];
    assert Run(EMPTY, o, steps[..0]) == EMPTY;
    assert Run(EMPTY, o, steps[..1]) == Next(EMPTY, o, steps[0]);
    assert Run(EMPTY, o, steps[..2]) == Next(Run(EMPTY, o, steps[..1]), o, steps[1]);
    assert Run(EMPTY, o, steps[..3]) == Next(Run(EMPTY, o, steps[..2]), o, steps[2]);
    assert Run(EMPTY, o, steps[..4]) == Next(Run(EMPTY, o, steps[..3]), o, steps[3]);
    assert Run(EMPTY, o, steps[..5]) == Next(Run(EMPTY, o, steps[..4]), o, steps[4]);
    assert steps[..6] == steps;
  }

  /** A delivered row was published and that publish returned. */
  lemma {:induction false} DeliveredWasPublished(o: Options, steps: seq<Step>, r: nat)
    ensures var q := Run(EMPTY, o, steps);
            r < |q.rows| && q.rows[r].status.Delivered? ==> q.rows[r].returned
  {
    RunKeepsInv(EMPTY, o, steps);
    if r < |Run(EMPTY, o, steps).rows| {
      assert RowInv(Run(EMPTY, o, steps), o, r);
    }
  }

  /** Delivered is final, and dead is left only by a replay of that row. */
  lemma {:induction false} TerminalStatuses(q: Queue, o: Options, step: Step, r: nat)
    requires r < |q.rows|
    ensures var t := Next(q, o, step);
            && r < |t.rows|
            && (q.rows[r].status.Delivered? ==> t.rows[r].status.Delivered?)
            && (q.rows[r].status.Dead? && step != Replay(r) ==> t.rows[r].status.Dead?)
  {
  }

  lemma {:induction false} DeliveredIsFinal(q: Queue, o: Options, steps: seq<Step>, r: nat)
    requires r < |q.rows|
    ensures r < |Run(q, o, steps).rows|
    ensures q.rows[r].status.Delivered? ==> Run(q, o, steps).rows[r].status.Delivered?
    ensures q.rows[r].status.Dead? && Replay(r) !in steps ==> Run(q, o, steps).rows[r].status.Dead?
  {
    if steps != [] {
      DeliveredIsFinal(q, o, steps[..|steps| - 1], r);
      TerminalStatuses(Run(q, o, steps[..|steps| - 1]), o, steps[|steps| - 1], r);
    }
  }

  // ------------------------------------------------------ retries and leases

  /** A replay makes a dead row due at once, with all of its attempts before it. */
  lemma {:induction false} ReplayRevives(q: Queue, o: Options, r: nat)
    requires r < |q.rows| && q.rows[r].status.Dead? && o.maxAttempts > 0
    ensures var t := Next(q, o, Replay(r));
            && |t.rows| == |q.rows| && t.rows[r].status.Pending? && t.rows[r].attempts == 0 && Claims(t, o, Claim(r))
  {
  }

  /** A failure puts a pending row off by its delay, or retires it after its last attempt; it leaves all else. */
  lemma {:induction false} FailureIsRetried(q: Queue, o: Options, k: nat, delay: nat)
    requires k < |q.tasks| && !q.tasks[k].phase.Claimed? && q.tasks[k].row < |q.rows|
    requires q.rows[q.tasks[k].row].status.Pending?
    ensures var t, r := Next(q, o, MarkFailed(k, delay)), q.tasks[k].row;
            && |t.rows| == |q.rows| && (forall i :: 0 <= i < |q.rows| && i != r ==> t.rows[i] == q.rows[i])
            && t.rows[r].attempts == q.rows[r].attempts
            && (if q.tasks[k].attempt < o.maxAttempts then t.rows[r].status.Pending? && t.rows[r].due == q.now + delay
                else t.rows[r].status.Dead?)
  {
  }

  /** Until row r is replayed: what is dead is malformed or spent, and no claim is ahead of the row's attempts. */
  ghost predicate SpentInv(q: Queue, o: Options, r: nat) {
    && (r < |q.rows| && q.rows[r].status.Dead? ==> !q.rows[r].wellFormed || q.rows[r].attempts >= o.maxAttempts)
    && (forall k :: 0 <= k < |q.tasks| && q.tasks[k].row == r ==> r < |q.rows| && q.tasks[k].attempt <= q.rows[r].attempts)
  }

  lemma {:induction false} NextKeepsSpent(q: Queue, o: Options, step: Step, r: nat)
    requires SpentInv(q, o, r) && step != Replay(r)
    ensures SpentInv(Next(q, o, step), o, r)
  {
    if step.Claim? || step.Publish? {
      ClaimsKeepSpent(q, o, step, r);
    } else if step.Poison? || step.MarkDelivered? || step.MarkFailed? || step.Crash? {
      MarksKeepSpent(q, o, step, r);
    } else {
      OthersKeepSpent(q, o, step, r);
    }
  }

  lemma {:induction false} ClaimsKeepSpent(q: Queue, o: Options, step: Step, r: nat)
    requires SpentInv(q, o, r) && (step.Claim? || step.Publish?)
    ensures SpentInv(Next(q, o, step), o, r)
  {
  }

  lemma {:induction false} MarksKeepSpent(q: Queue, o: Options, step: Step, r: nat)
    requires SpentInv(q, o, r) && (step.Poison? || step.MarkDelivered? || step.MarkFailed? || step.Crash?)
    ensures SpentInv(Next(q, o, step), o, r)
  {
  }

  lemma {:induction false} OthersKeepSpent(q: Queue, o: Options, step: Step, r: nat)
    requires SpentInv(q, o, r) && (step.Tick? || step.Enqueue? || step.Sweep? || (step.Replay? && step.r != r))
    ensures SpentInv(Next(q, o, step), o, r)
  {
  }

  /** A row that was never replayed is dead only if it is malformed or has spent every attempt. */
  lemma {:induction false} DeadIsSpent(o: Options, steps: seq<Step>, r: nat)
    requires Replay(r) !in steps
    ensures var q := Run(EMPTY, o, steps);
            r < |q.rows| && q.rows[r].status.Dead? ==> !q.rows[r].wellFormed || q.rows[r].attempts >= o.maxAttempts
  {
    RunKeepsSpent(o, steps, r);
  }

  lemma {:induction false} RunKeepsSpent(o: Options, steps: seq<Step>, r: nat)
    requires Replay(r) !in steps
    ensures SpentInv(Run(EMPTY, o, steps), o, r)
  {
    if steps != [] {
      assert steps[|steps| - 1] in steps;
      RunKeepsSpent(o, steps[..|steps| - 1], r);
      NextKeepsSpent(Run(EMPTY, o, steps[..|steps| - 1]), o, steps[|steps| - 1], r);
    }
  }

  /** The steps that may make row r due before its lease ends: a replay, or the failure of a claim of it. */
  predicate Frees(q: Queue, step: Step, r: nat) {
    step == Replay(r) || (step.MarkFailed? && step.k < |q.tasks| && q.tasks[step.k].row == r)
  }

  ghost predicate Undisturbed(q: Queue, o: Options, steps: seq<Step>, r: nat) {
    steps == [] ||
    var front, last := steps[..|steps| - 1], steps[|steps| - 1];
    Undisturbed(q, o, front, r) && !Frees(Run(q, o, front), last, r)
  }

  /** Row r is under a lease until `end`, or is closed. */
  ghost predicate Leased(q: Queue, r: nat, end: nat) {
    r < |q.rows| && (q.now < end ==> !q.rows[r].status.Pending? || q.rows[r].due == end)
  }

  lemma {:induction false} NextKeepsLease(q: Queue, o: Options, step: Step, r: nat, end: nat)
    requires Leased(q, r, end) && !Frees(q, step, r)
    ensures Leased(Next(q, o, step), r, end) && q.now <= Next(q, o, step).now
  {
  }

  lemma {:induction false} RunKeepsLease(q: Queue, o: Options, steps: seq<Step>, r: nat, end: nat)
    requires Leased(q, r, end) && Undisturbed(q, o, steps, r)
    ensures Leased(Run(q, o, steps), r, end)
  {
    if steps != [] {
      RunKeepsLease(q, o, steps[..|steps| - 1], r, end);
      NextKeepsLease(Run(q, o, steps[..|steps| - 1]), o, steps[|steps| - 1], r, end);
    }
  }

  /**
   * While the lease of a claim runs, nobody else can claim its row and no sweep retires it,
   * whatever is published, delivered or crashes, unless it is replayed or a claim of it fails.
   */
  lemma {:induction false} LeaseExcludes(q: Queue, o: Options, r: nat, steps: seq<Step>)
    requires Claims(q, o, Claim(r)) && Undisturbed(Next(q, o, Claim(r)), o, steps, r)
    ensures var t := Run(Next(q, o, Claim(r)), o, steps);
            r < |t.rows| && (t.now < q.now + o.lease ==>
              !Claims(t, o, Claim(r)) && Swept(t.rows[r], o, t.now) == t.rows[r])
  {
    RunKeepsLease(Next(q, o, Claim(r)), o, steps, r, q.now + o.lease);
  }

  // ------------------------------------------------------------ termination

  /** The attempts a row may still be given. */
  function Remaining(o: Options): Row -> int {
    (row: Row) => if row.status.Pending? && row.attempts < o.maxAttempts then o.maxAttempts - row.attempts else 0
  }

  predicate Claims(q: Queue, o: Options, step: Step) {
    step.Claim? && step.r < |q.rows| && Eligible(q.rows[step.r], o, q.now)
  }

  /** How many steps of the run were claims. */
  function ClaimCount(q: Queue, o: Options, steps: seq<Step>): nat {
    if steps == [] then 0
    else
      var before := steps[..|steps| - 1];
      ClaimCount(q, o, before) + if Claims(Run(q, o, before), o, steps[|steps| - 1]) then 1 else 0
  }

  lemma {:induction false} SweepSpends(rows: seq<Row>, o: Options, now: nat)
    ensures Sum(SweptAll(rows, o, now), Remaining(o)) == Sum(rows, Remaining(o))
  {
    if rows != [] {
      var n := |rows| - 1;
      SweepSpends(rows[..n], o, now);
      assert SweptAll(rows, o, now)[..n] == SweptAll(rows[..n], o, now);
    }
  }

  lemma {:induction false} StepSpends(q: Queue, o: Options, step: Step)
    requires !step.Replay? && !step.Enqueue?
    ensures Sum(Next(q, o, step).rows, Remaining(o)) + (if Claims(q, o, step) then 1 else 0) <= Sum(q.rows, Remaining(o))
  {
    match step
    case Sweep => SweepSpends(q.rows, o, q.now);
    case Claim(r) => if r < |q.rows| { SumSet(q.rows, r, ClaimedRow(q.rows[r], o, q.now), Remaining(o)); }
    case Publish(k, ok) =>
      if Has(q, k, Claimed) {
        var t := q.tasks[k];
        SumSet(q.rows, t.row, PublishedRow(q.rows[t.row], t.round, ok), Remaining(o));
      }
    case Poison(k) =>
      if Has(q, k, Claimed) {
        var r := q.tasks[k].row;
        SumSet(q.rows, r, IfPending(q.rows[r], q.rows[r].(status := Dead)), Remaining(o));
      }
    case MarkDelivered(k) =>
      if Has(q, k, Returned) {
        var r := q.tasks[k].row;
        SumSet(q.rows, r, IfPending(q.rows[r], q.rows[r].(status := Delivered)), Remaining(o));
      }
    case MarkFailed(k, backoff) =>
      if Has(q, k, Threw) || Has(q, k, Returned) {
        var t := q.tasks[k];
        SumSet(q.rows, t.row, FailedRow(q.rows[t.row], t.attempt, o, q.now + backoff), Remaining(o));
      }
    case _ =>
  }

  /**
   * Without replays and new rows, the attempts remaining over the pending rows bound
   * all claims that any relays will ever make.
   */
  lemma {:induction false} ClaimsAreBounded(q: Queue, o: Options, steps: seq<Step>)
    requires forall i :: 0 <= i < |steps| ==> !steps[i].Replay? && !steps[i].Enqueue?
    ensures Sum(Run(q, o, steps).rows, Remaining(o)) + ClaimCount(q, o, steps) <= Sum(q.rows, Remaining(o))
  {
    if steps != [] {
      var before := steps[..|steps| - 1];
      assert forall i :: 0 <= i < |before| ==> before[i] == steps[i];
      ClaimsAreBounded(q, o, before);
      StepSpends(Run(q, o, before), o, steps[|steps| - 1]);
    }
  }

  /** No pending row is stuck: once due it can be claimed, or the next sweep retires it. */
  lemma {:induction false} NoStuckRow(q: Queue, o: Options, r: nat, ms: nat)
    requires r < |q.rows| && q.rows[r].status.Pending? && q.now + ms >= q.rows[r].due
    ensures var t := Next(Next(q, o, Tick(ms)), o, Sweep);
            if q.rows[r].attempts < o.maxAttempts then Claims(t, o, Claim(r)) else t.rows[r].status.Dead?
  {
  }

  // ------------------------------------------------ one relay, undisturbed

  datatype Stats = Stats(claimed: nat, delivered: nat, retried: nat, dead: nat)

  function Pow2(n: nat): nat {
    if n == 0 then 1 else 2 * Pow2(n - 1)
  }

  /** computeBackoffMs. */
  function Backoff(base: nat, most: nat, attempt: nat): nat {
    var exp := base * Pow2(if attempt == 0 then 0 else attempt - 1);
    if most < exp then most else exp
  }

  /** The first delay is the base, each one is twice the one before, and none is over the maximum. */
  lemma {:induction false} BackoffDoubles(base: nat, most: nat, attempt: nat)
    requires attempt > 0
    ensures Backoff(base, most, 1) == if base <= most then base else most
    ensures Backoff(base, most, attempt) <= Backoff(base, most, attempt + 1) <= most
    ensures Backoff(base, most, attempt + 1) ==
            if 2 * Backoff(base, most, attempt) <= most then 2 * Backoff(base, most, attempt) else most
  {
    assert Pow2(0) == 1;
    var p := Pow2(attempt - 1);
    assert Pow2(attempt) == 2 * p;
    assert base * (2 * p) == 2 * (base * p);
  }

  /** The claim takes rows in the order of due time, then id. */
  predicate Before(rows: seq<Row>, i: nat, j: nat)
    requires i < |rows| && j < |rows|
  {
    rows[i].due < rows[j].due || (rows[i].due == rows[j].due && i <= j)
  }

  /** What one cycle leaves of a claimed row. */
  function Dispatched(row: Row, o: Options, now: nat, ok: bool, marked: bool, backoff: nat): Row {
    var c := ClaimedRow(row, o, now);
    if !c.wellFormed then c.(status := Dead)
    else
      var p := PublishedRow(c, c.round, ok);
      if ok && marked then p.(status := Delivered) else FailedRow(p, c.attempts, o, now + backoff)
  }

  /**
   * What one cycle leaves of a row that it claimed, told by what happened: a malformed one
   * is dead; one that was published and marked is delivered; and one whose publish or mark
   * threw is due again after the delay, unless that was its last attempt.
   */
  ghost predicate Cycled(before: Row, after: Row, o: Options, now: nat, ok: bool, marked: bool, delay: nat) {
    && after.attempts == before.attempts + 1 && after.wellFormed == before.wellFormed && after.round == before.round
    && after.published == before.published + (if before.wellFormed then 1 else 0)
    && after.late == before.late && after.inherited == before.inherited
    && (if !before.wellFormed then after.status.Dead?
        else if ok && marked then after.status.Delivered? && after.returned
        else if before.attempts + 1 < o.maxAttempts then after.status.Pending? && after.due == now + delay
        else after.status.Dead?)
  }

  lemma {:induction false} DispatchedIsCycled(row: Row, o: Options, now: nat, ok: bool, marked: bool, delay: nat)
    requires row.status.Pending?
    ensures Cycled(row, Dispatched(row, o, now, ok, marked, delay), o, now, ok, marked, delay)
  {
  }

  ghost predicate AllCycled(before: seq<Row>, after: seq<Row>, ids: seq<nat>, o: Options, now: nat,
                            ok: nat -> bool, marks: nat -> bool, backoff: nat -> nat)
  {
    forall k :: 0 <= k < |ids| ==>
      && ids[k] < |before| && ids[k] < |after|
      && Cycled(before[ids[k]], after[ids[k]], o, now, ok(ids[k]), marks(ids[k]), backoff(before[ids[k]].attempts + 1))
  }

  /** How many of the rows with these ids have a status. */
  function CountOf(rows: seq<Row>, ids: seq<nat>, status: Status): nat
    requires forall k :: 0 <= k < |ids| ==> ids[k] < |rows|
  {
    if ids == [] then 0
    else CountOf(rows, ids[..|ids| - 1], status) + if rows[ids[|ids| - 1]].status == status then 1 else 0
  }

  lemma {:induction false} CountSame(rows: seq<Row>, others: seq<Row>, ids: seq<nat>, status: Status)
    requires |rows| == |others| && forall k :: 0 <= k < |ids| ==> ids[k] < |rows| && rows[ids[k]] == others[ids[k]]
    ensures CountOf(rows, ids, status) == CountOf(others, ids, status)
  {
    if ids != [] {
      assert forall k :: 0 <= k < |ids| - 1 ==> ids[..|ids| - 1][k] == ids[k];
      CountSame(rows, others, ids[..|ids| - 1], status);
    }
  }

  /** One more row that ended in a status. */
  function Tally(stats: Stats, status: Status): Stats {
    match status
    case Delivered => stats.(delivered := stats.delivered + 1)
    case Pending => stats.(retried := stats.retried + 1)
    case Dead => stats.(dead := stats.dead + 1)
  }

  /** The statistics have grown by the rows with these ids, each by its status. */
  ghost predicate Tallied(rows: seq<Row>, ids: seq<nat>, before: Stats, stats: Stats) {
    && (forall k :: 0 <= k < |ids| ==> ids[k] < |rows|)
    && stats == Stats(before.claimed, before.delivered + CountOf(rows, ids, Delivered),
                      before.retried + CountOf(rows, ids, Pending), before.dead + CountOf(rows, ids, Dead))
  }

  lemma {:induction false} TallyNext(rows: seq<Row>, ids: seq<nat>, k: nat, before: Stats, stats: Stats)
    requires k < |ids| && ids[k] < |rows| && Tallied(rows, ids[..k], before, stats)
    ensures Tallied(rows, ids[..k + 1], before, Tally(stats, rows[ids[k]].status))
  {
    assert ids[..k + 1] == ids[..k] + [ids[k]];
    assert ids[..k + 1][..k] == ids[..k];
  }

  lemma {:induction false} TallySame(rows: seq<Row>, others: seq<Row>, ids: seq<nat>, before: Stats, stats: Stats)
    requires |rows| == |others| && forall k :: 0 <= k < |ids| ==> ids[k] < |rows| && rows[ids[k]] == others[ids[k]]
    requires Tallied(others, ids, before, stats)
    ensures Tallied(rows, ids, before, stats)
  {
    CountSame(rows, others, ids, Delivered);
    CountSame(rows, others, ids, Pending);
    CountSame(rows, others, ids, Dead);
  }

  /** What dispatching would leave of every row, had it been claimed. */
  ghost function DispatchedAll(rows: seq<Row>, o: Options, now: nat, ok: nat -> bool, marks: nat -> bool, backoff: nat -> nat)
    : (all: seq<Row>)
    ensures |all| == |rows|
    ensures forall i :: 0 <= i < |rows| ==>
              all[i] == Dispatched(rows[i], o, now, ok(i), marks(i), backoff(rows[i].attempts + 1))
  {
    seq(|rows|, i requires 0 <= i < |rows| => Dispatched(rows[i], o, now, ok(i), marks(i), backoff(rows[i].attempts + 1)))
  }

  /** The least eligible row that has not been taken yet, or |rows|. */
  method Least(rows: seq<Row>, o: Options, now: nat, taken: seq<nat>) returns (best: nat)
    ensures best <= |rows|
    ensures best < |rows| ==> Eligible(rows[best], o, now) && best !in taken
    ensures forall j :: 0 <= j < |rows| && Eligible(rows[j], o, now) && j !in taken ==> best < |rows| && Before(rows, best, j)
  {
    best := |rows|;
    for i := 0 to |rows|
      invariant best == |rows| || best < i
      invariant best < |rows| ==> Eligible(rows[best], o, now) && best !in taken
      invariant forall j :: 0 <= j < i && Eligible(rows[j], o, now) && j !in taken ==> best < |rows| && Before(rows, best, j)
    {
      if Eligible(rows[i], o, now) && i !in taken && (best == |rows| || rows[i].due < rows[best].due) {
        best := i;
      }
    }
  }

  ghost predicate Batch(rows: seq<Row>, o: Options, now: nat, ids: seq<nat>) {
    && (forall k :: 0 <= k < |ids| ==> ids[k] < |rows| && Eligible(rows[ids[k]], o, now))
    && (forall k, l :: 0 <= k < l < |ids| ==> ids[k] != ids[l])
    && (forall k, j :: 0 <= k < |ids| && 0 <= j < |rows| && Eligible(rows[j], o, now) && j !in ids ==> Before(rows, ids[k], j))
  }

  /** ORDER BY next_attempt_at, id LIMIT batchSize. */
  method Select(rows: seq<Row>, o: Options, now: nat, batch: nat) returns (ids: seq<nat>)
    ensures Batch(rows, o, now, ids) && |ids| <= batch
    ensures |ids| < batch ==> forall j :: 0 <= j < |rows| && Eligible(rows[j], o, now) ==> j in ids
  {
    ids := [];
    while |ids| < batch
      invariant Batch(rows, o, now, ids) && |ids| <= batch
    {
      var best := Least(rows, o, now, ids);
      if best == |rows| {
        break;
      }
      ids := ids + [best];
    }
  }

  /** What a cycle over the rows leaves when it has claimed and dispatched a batch of what the sweep left. */
  lemma {:induction false} CycleIsDone(before: seq<Row>, swept: seq<Row>, after: seq<Row>, ids: seq<nat>, batch: nat, o: Options,
                                       now: nat, ok: nat -> bool, marks: nat -> bool, backoff: nat -> nat)
    requires swept == SweptAll(before, o, now) && |after| == |before| && Batch(swept, o, now, ids)
    requires |ids| < batch ==> forall j :: 0 <= j < |swept| && Eligible(swept[j], o, now) ==> j in ids
    requires forall i :: 0 <= i < |after| ==>
               after[i] == if i in ids then DispatchedAll(swept, o, now, ok, marks, backoff)[i] else swept[i]
    ensures |ids| < batch ==> forall j :: 0 <= j < |after| && Eligible(before[j], o, now) ==> j in ids
    ensures forall i :: 0 <= i < |after| ==>
              after[i] == if i in ids then Dispatched(before[i], o, now, ok(i), marks(i), backoff(before[i].attempts + 1))
                          else Swept(before[i], o, now)
    ensures AllCycled(before, after, ids, o, now, ok, marks, backoff)
  {
    forall j | 0 <= j < |before| && Eligible(before[j], o, now) ensures Eligible(swept[j], o, now) {
    }
    forall i | 0 <= i < |after| && i in ids
      ensures after[i] == Dispatched(before[i], o, now, ok(i), marks(i), backoff(before[i].attempts + 1))
    {
      var k :| 0 <= k < |ids| && ids[k] == i;
      assert Eligible(swept[ids[k]], o, now) && swept[i] == before[i];
    }
    forall k | 0 <= k < |ids|
      ensures Cycled(before[ids[k]], after[ids[k]], o, now, ok(ids[k]), marks(ids[k]), backoff(before[ids[k]].attempts + 1))
    {
      assert Eligible(swept[ids[k]], o, now) && swept[ids[k]] == before[ids[k]] && ids[k] in ids;
      DispatchedIsCycled(swept[ids[k]], o, now, ok(ids[k]), marks(ids[k]), backoff(swept[ids[k]].attempts + 1));
    }
  }

  /** The rows of the first k ids have their target, the others stand as they were. */
  ghost predicate Partly(rows: seq<Row>, before: seq<Row>, target: seq<Row>, ids: seq<nat>, k: nat)
    requires k <= |ids|
  {
    && |rows| == |before| == |target|
    && forall i :: 0 <= i < |rows| ==> rows[i] == if i in ids[..k] then target[i] else before[i]
  }

  lemma {:induction false} PartlyNext(rows: seq<Row>, before: seq<Row>, target: seq<Row>, ids: seq<nat>, k: nat)
    requires k < |ids| && Partly(rows, before, target, ids, k) && ids[k] < |rows|
    requires forall j, l :: 0 <= j < l < |ids| ==> ids[j] != ids[l]
    ensures rows[ids[k]] == before[ids[k]]
    ensures Partly(rows[ids[k] := target[ids[k]]], before, target, ids, k + 1)
  {
    assert ids[k] !in ids[..k] && ids[..k + 1] == ids[..k] + [ids[k]];
  }

  class Relay {
    var rows: seq<Row>
    const o: Options

    constructor (o: Options, rows: seq<Row>)
      ensures this.o == o && this.rows == rows
    {
      this.o := o;
      this.rows := rows;
    }

    /**
     * runOnce: sweep, claim a batch, publish each event, mark it. `ok` says which
     * publishes return, `marks` which updates to delivered do, and `backoff` is the
     * delay after each attempt.
     */
    method RunOnce(now: nat, batch: nat, ok: nat -> bool, marks: nat -> bool, backoff: nat -> nat)
      returns (ids: seq<nat>, stats: Stats)
      modifies this
      ensures |rows| == |old(rows)|
      ensures Batch(SweptAll(old(rows), o, now), o, now, ids) && |ids| <= batch
      ensures |ids| < batch ==>
                forall j :: 0 <= j < |rows| && Eligible(old(rows)[j], o, now) ==> j in ids
      ensures forall i :: 0 <= i < |rows| ==>
                rows[i] == if i in ids then Dispatched(old(rows)[i], o, now, ok(i), marks(i), backoff(old(rows)[i].attempts + 1))
                           else Swept(old(rows)[i], o, now)
      ensures AllCycled(old(rows), rows, ids, o, now, ok, marks, backoff)
      ensures stats.claimed == |ids|
      ensures stats.delivered == CountOf(rows, ids, Delivered) && stats.retried == CountOf(rows, ids, Pending)
      ensures stats.dead == CountOf(rows, ids, Dead) + SweptCount(old(rows), o, now)
    {
      var swept := SweptAll(rows, o, now);
      var dead := CountSwept(rows, o, now);
      rows := swept;
      ids := Select(swept, o, now, batch);
      ClaimAll(ids, now);
      stats := DispatchAll(ids, swept, now, ok, marks, backoff, Stats(|ids|, 0, 0, dead));
      CycleIsDone(old(rows), swept, rows, ids, batch, o, now, ok, marks, backoff);
    }

    /** Dispatches the rows of a batch, one after the other; `swept` are the rows before the claim. */
    method DispatchAll(ids: seq<nat>, swept: seq<Row>, now: nat, ok: nat -> bool, marks: nat -> bool, backoff: nat -> nat,
                       before: Stats)
      returns (stats: Stats)
      requires |rows| == |swept| && forall k :: 0 <= k < |ids| ==> ids[k] < |rows|
      requires forall j, k :: 0 <= j < k < |ids| ==> ids[j] != ids[k]
      requires forall i :: 0 <= i < |rows| ==> rows[i] == if i in ids then ClaimedRow(swept[i], o, now) else swept[i]
      requires forall k :: 0 <= k < |ids| ==> swept[ids[k]].status.Pending?
      modifies this
      ensures |rows| == |swept|
      ensures forall i :: 0 <= i < |rows| ==>
                rows[i] == if i in ids then DispatchedAll(swept, o, now, ok, marks, backoff)[i] else swept[i]
      ensures Tallied(rows, ids, before, stats)
    {
      ghost var target, claimed := DispatchedAll(swept, o, now, ok, marks, backoff), rows;
      stats := before;
      for k := 0 to |ids|
        invariant Partly(rows, claimed, target, ids, k) && Tallied(target, ids[..k], before, stats)
      {
        var r := ids[k];
        PartlyNext(rows, claimed, target, ids, k);
        TallyNext(target, ids, k, before, stats);
        stats := Dispatch(r, swept[r], now, ok(r), marks(r), backoff(swept[r].attempts + 1), stats);
      }
      assert ids[..|ids|] == ids;
      TallySame(rows, target, ids, before, stats);
    }

    /** The claim of a batch: one attempt more, and a lease, for each of its rows. */
    method ClaimAll(ids: seq<nat>, now: nat)
      requires forall k :: 0 <= k < |ids| ==> ids[k] < |rows|
      requires forall j, k :: 0 <= j < k < |ids| ==> ids[j] != ids[k]
      modifies this
      ensures |rows| == |old(rows)|
      ensures forall i :: 0 <= i < |rows| ==>
                rows[i] == if i in ids then ClaimedRow(old(rows)[i], o, now) else old(rows)[i]
    {
      ghost var before := rows;
      for k := 0 to |ids|
        invariant |rows| == |before|
        invariant forall i :: 0 <= i < |rows| ==>
                    rows[i] == if i in ids[..k] then ClaimedRow(before[i], o, now) else before[i]
      {
        assert ids[k] !in ids[..k] && ids[..k + 1] == ids[..k] + [ids[k]];
        rows := rows[ids[k] := ClaimedRow(rows[ids[k]], o, now)];
      }
      assert ids[..|ids|] == ids;
    }

    /** Publishes a claimed row and marks it; `swept` is the row before the claim. */
    method Dispatch(r: nat, swept: Row, now: nat, ok: bool, marked: bool, delay: nat, stats: Stats)
      returns (after: Stats)
      requires r < |rows| && rows[r] == ClaimedRow(swept, o, now) && swept.status.Pending?
      modifies this
      ensures rows == old(rows)[r := Dispatched(swept, o, now, ok, marked, delay)]
      ensures after == Tally(stats, rows[r].status)
    {
      var row := rows[r];
      if !row.wellFormed {
        rows := rows[r := row.(status := Dead)];
        return stats.(dead := stats.dead + 1);
      }
      row := PublishedRow(row, row.round, ok);
      if ok && marked {
        rows := rows[r := row.(status := Delivered)];
        return stats.(delivered := stats.delivered + 1);
      }
      rows := rows[r := FailedRow(row, row.attempts, o, now + delay)];
      return if row.attempts >= o.maxAttempts then stats.(dead := stats.dead + 1) else stats.(retried := stats.retried + 1);
    }
  }

  /** How many rows the sweep retires. */
  function SweptCount(rows: seq<Row>, o: Options, now: nat): nat {
    if rows == [] then 0
    else SweptCount(rows[..|rows| - 1], o, now) + if Exhausted(rows[|rows| - 1], o, now) then 1 else 0
  }

  method CountSwept(rows: seq<Row>, o: Options, now: nat) returns (n: nat)
    ensures n == SweptCount(rows, o, now)
  {
    n := 0;
    for i := 0 to |rows|
      invariant n == SweptCount(rows[..i], o, now)
    {
      assert rows[..i + 1][..i] == rows[..i];
      if Exhausted(rows[i], o, now) {
        n := n + 1;
      }
    }
    assert rows[..|rows|] == rows;
  }
}
