/**
 * Request idempotency: IdempotencyService.execute (packages/idempotency/src/index.ts).
 *
 * One tenant's key table, any number of concurrent callers. A claim is an uncommitted
 * insert: until its transaction ends, another insert of the same key waits, and gives
 * up with `InFlight` when its lock timeout passes. A crash rolls the claim back.
 */
module Idempotency {
  import opened Prelude

  /** Endpoint and key, the primary key of the table within a tenant. */
  datatype KeyId = KeyId(endpoint: string, key: string)

  datatype Response = Response(status: int, body: string)

  /** InProgress rows are only committed by flows outside this layer. */
  datatype Row = InProgress(hash: string) | Completed(hash: string, response: Response)

  datatype Request = Request(id: KeyId, hash: string)

  datatype Outcome = Fresh(response: Response) | Replayed(response: Response) | InFlight | KeyReuse | Failed

  /** A handler's committed effect. */
  datatype Effect = Effect(id: KeyId, hash: string, response: Response)

  // ------------------------------------------------- one call at a time

  /** The contract of a call on a key whose row is committed. */
  function Decide(row: Option<Row>, hash: string): Outcome {
    match row
    case None => KeyReuse
    case Some(r) =>
      if r.hash != hash then KeyReuse
      else if r.InProgress? then InFlight
      else Replayed(r.response)
  }

  class KeyTable {
    var rows: map<KeyId, Row>
    var effects: seq<Effect>

    /** execute, undisturbed; `handler` is None when the handler throws. */
    method Execute(request: Request, handler: Option<Response>) returns (outcome: Outcome)
      modifies this
      ensures request.id in old(rows) ==> rows == old(rows) && effects == old(effects)
      ensures request.id in old(rows) && old(rows)[request.id].hash != request.hash ==> outcome == KeyReuse
      ensures request.id in old(rows) && old(rows)[request.id].hash == request.hash && old(rows)[request.id].Completed? ==>
                outcome == Replayed(old(rows)[request.id].response)
      ensures request.id in old(rows) && old(rows)[request.id].hash == request.hash && old(rows)[request.id].InProgress? ==>
                outcome == InFlight
      ensures request.id !in old(rows) && handler.None? ==>
                outcome == Failed && rows == old(rows) && effects == old(effects)
      ensures request.id !in old(rows) && handler.Some? ==>
                && outcome == Fresh(handler.value)
                && rows == old(rows)[request.id := Completed(request.hash, handler.value)]
                && effects == old(effects) + [Effect(request.id, request.hash, handler.value)]
      ensures Sys(rows, [Answered(request, outcome)], effects, [])
           == Run(Sys(old(rows), [Idle], old(effects), []), CallSteps(request, request.id in old(rows), handler))
    {
      if request.id in rows {
        outcome := Decide(Some(rows[request.id]), request.hash);
      } else if handler.None? {
        outcome := Failed;
      } else {
        rows := rows[request.id := InProgress(request.hash)];
        effects := effects + [Effect(request.id, request.hash, handler.value)];
        rows := rows[request.id := Completed(request.hash, handler.value)];
        outcome := Fresh(handler.value);
      }
      CallIsRun(Sys(old(rows), [Idle], old(effects), []), request, handler);
    }
  }

  // ------------------------------------------------------ concurrent callers

  datatype Caller =
    | Idle
    | Arrived(request: Request)
    | Holding(request: Request)                     // claim inserted, handler running
    | Reading(request: Request)                     // the insert found a committed row
    | Answered(request: Request, outcome: Outcome)

  /** `purged` records the completed keys removed by the retention job. */
  datatype System = Sys(rows: map<KeyId, Row>, callers: seq<Caller>, effects: seq<Effect>, purged: seq<KeyId>)

  datatype Step =
    | Arrive(c: nat, request: Request)
    | Claim(c: nat)
    | LockTimeout(c: nat)
    | Read(c: nat)
    | Commit(c: nat, response: Response)
    | Abort(c: nat)
    | Purge(id: KeyId)
    | ForeignClaim(id: KeyId, hash: string)

  predicate Held(s: System, id: KeyId) {
    exists c :: 0 <= c < |s.callers| && s.callers[c].Holding? && s.callers[c].request.id == id
  }

  function Become(s: System, c: nat, caller: Caller): System
    requires c < |s.callers|
  {
    s.(callers := s.callers[c := caller])
  }

  /** One atomic step; a step that is not possible changes nothing. */
  function Next(s: System, step: Step): System {
    match step
    case Arrive(c, request) =>
      if c < |s.callers| && (s.callers[c].Idle? || s.callers[c].Answered?) then Become(s, c, Arrived(request)) else s
    case Claim(c) =>
      if c < |s.callers| && s.callers[c].Arrived? && !Held(s, s.callers[c].request.id) then
        var request := s.callers[c].request;
        Become(s, c, if request.id in s.rows then Reading(request) else Holding(request))
      else s
    case LockTimeout(c) =>
      if c < |s.callers| && s.callers[c].Arrived? && Held(s, s.callers[c].request.id) then
        Become(s, c, Answered(s.callers[c].request, InFlight))
      else s
    case Read(c) =>
      if c < |s.callers| && s.callers[c].Reading? then
        var request := s.callers[c].request;
        var row := if request.id in s.rows then Some(s.rows[request.id]) else None;
        Become(s, c, Answered(request, Decide(row, request.hash)))
      else s
    case Commit(c, response) =>
      if c < |s.callers| && s.callers[c].Holding? then
        var Request(id, hash) := s.callers[c].request;
        Become(s, c, Answered(s.callers[c].request, Fresh(response)))
          .(rows := s.rows[id := Completed(hash, response)], effects := s.effects + [Effect(id, hash, response)])
      else s
    case Abort(c) =>
      if c < |s.callers| && s.callers[c].Holding? then Become(s, c, Answered(s.callers[c].request, Failed)) else s
    case Purge(id) =>
      if id in s.rows then
        s.(rows := s.rows - {id}, purged := if s.rows[id].Completed? then s.purged + [id] else s.purged)
      else s
    case ForeignClaim(id, hash) =>
      if id in s.rows || Held(s, id) then s else s.(rows := s.rows[id := InProgress(hash)])
  }

  function Run(s: System, steps: seq<Step>): System {
    if steps == [] then s else Next(Run(s, steps[..|steps| - 1]), steps[|steps| - 1])
  }

  function Initial(callers: nat): System {
    Sys(map[], seq(callers, _ => Idle), [], [])
  }

  /** The steps of one undisturbed call by the only caller. */
  function CallSteps(request: Request, taken: bool, handler: Option<Response>): seq<Step> {
    [Arrive(0, request), Claim(0), if taken then Read(0) else if handler.Some? then Commit(0, handler.value) else Abort(0)]
  }

  lemma {:induction false} RunOfThree(s: System, a: Step, b: Step, c: Step)
    ensures Run(s, [a, b, c]) == Next(Next(Next(s, a), b), c)
  {
    assert [a, b, c][..2] == [a, b] && [a, b][..1] == [a] && [a][..0] == [];
    assert Run(s, [a]) == Next(s, a);
    assert Run(s, [a, b]) == Next(Next(s, a), b);
  }

  /** Where the first two steps of an undisturbed call lead. */
  lemma {:induction false} CallIsClaimed(s: System, request: Request)
    requires s.callers == [Idle]
    ensures Next(Next(s, Arrive(0, request)), Claim(0))
         == s.(callers := [if request.id in s.rows then Reading(request) else Holding(request)])
  {
    var t := Next(s, Arrive(0, request));
    assert t.callers == [Arrived(request)];
    assert !Held(t, request.id);
  }

  lemma {:induction false} CallIsRun(s: System, request: Request, handler: Option<Response>)
    requires s.callers == [Idle]
    ensures var t := Run(s, CallSteps(request, request.id in s.rows, handler));
            if request.id in s.rows then
              t == s.(callers := [Answered(request, Decide(Some(s.rows[request.id]), request.hash))])
            else if handler.None? then t == s.(callers := [Answered(request, Failed)])
            else t == Sys(s.rows[request.id := Completed(request.hash, handler.value)],
                          [Answered(request, Fresh(handler.value))],
                          s.effects + [Effect(request.id, request.hash, handler.value)],
                          s.purged)
  {
    var steps := CallSteps(request, request.id in s.rows, handler);
    RunOfThree(s, steps[0], steps[1], steps[2]);
    CallIsClaimed(s, request);
    var caller := if request.id in s.rows then Reading(request) else Holding(request);
    assert forall r: Caller :: [caller][0 := r] == [r];
  }

  // ------------------------------------------------------------- invariants

  function EffectOn(id: KeyId): Effect -> int {
    (e: Effect) => if e.id == id then 1 else 0
  }

  function Is(id: KeyId): KeyId -> int {
    (k: KeyId) => if k == id then 1 else 0
  }

  /** A claim excludes both a committed row and any other claim of the key. */
  ghost predicate ClaimsExclude(s: System) {
    && (forall c :: 0 <= c < |s.callers| && s.callers[c].Holding? ==> s.callers[c].request.id !in s.rows)
    && (forall c, d :: 0 <= c < d < |s.callers| && s.callers[c].Holding? && s.callers[d].Holding? ==>
          s.callers[c].request.id != s.callers[d].request.id)
  }

  /** A completed row stands for one committed effect with its hash and response. */
  ghost predicate RowsHaveEffects(s: System) {
    forall id :: id in s.rows && s.rows[id].Completed? ==> Effect(id, s.rows[id].hash, s.rows[id].response) in s.effects
  }

  /** A key has as many effects as completed rows, those purged included. */
  ghost predicate CountAgrees(s: System, id: KeyId) {
    Sum(s.effects, EffectOn(id)) == Sum(s.purged, Is(id)) + (if id in s.rows && s.rows[id].Completed? then 1 else 0)
  }

  ghost predicate CountsAgree(s: System) {
    forall id :: CountAgrees(s, id)
  }

  /** Every answer that carries a response carries that of a committed effect of the same request. */
  ghost predicate AnswersHaveEffects(s: System) {
    forall c :: 0 <= c < |s.callers| && s.callers[c].Answered? ==>
      var Answered(request, outcome) := s.callers[c];
      (outcome.Fresh? || outcome.Replayed?) ==> Effect(request.id, request.hash, outcome.response) in s.effects
  }

  ghost predicate Inv(s: System) {
    ClaimsExclude(s) && RowsHaveEffects(s) && CountsAgree(s) && AnswersHaveEffects(s)
  }

  lemma {:induction false} NextKeepsClaims(s: System, step: Step)
    requires ClaimsExclude(s)
    ensures ClaimsExclude(Next(s, step))
  {
  }

  lemma {:induction false} NextKeepsEffects(s: System, step: Step)
    requires RowsHaveEffects(s) && AnswersHaveEffects(s)
    ensures RowsHaveEffects(Next(s, step)) && AnswersHaveEffects(Next(s, step))
  {
  }

  lemma {:induction false} CommitKeepsCount(s: System, c: nat, response: Response, id: KeyId)
    requires ClaimsExclude(s) && CountAgrees(s, id)
    ensures CountAgrees(Next(s, Commit(c, response)), id)
  {
    if c < |s.callers| && s.callers[c].Holding? {
      var request := s.callers[c].request;
      SumPush(s.effects, Effect(request.id, request.hash, response), EffectOn(id));
    }
  }

  lemma {:induction false} PurgeKeepsCount(s: System, purged: KeyId, id: KeyId)
    requires CountAgrees(s, id)
    ensures CountAgrees(Next(s, Purge(purged)), id)
  {
    SumPush(s.purged, purged, Is(id));
  }

  lemma {:induction false} OthersKeepCount(s: System, step: Step, id: KeyId)
    requires CountAgrees(s, id) && !step.Commit? && !step.Purge?
    ensures CountAgrees(Next(s, step), id)
  {
  }

  lemma {:induction false} NextKeepsCounts(s: System, step: Step)
    requires ClaimsExclude(s) && CountsAgree(s)
    ensures CountsAgree(Next(s, step))
  {
    forall id ensures CountAgrees(Next(s, step), id) {
      assert CountAgrees(s, id);
      match step
      case Commit(c, response) => CommitKeepsCount(s, c, response, id);
      case Purge(purged) => PurgeKeepsCount(s, purged, id);
      case _ => OthersKeepCount(s, step, id);
    }
  }

  lemma {:induction false} RunKeepsInv(callers: nat, steps: seq<Step>)
    ensures Inv(Run(Initial(callers), steps))
  {
    if steps != [] {
      var before := Run(Initial(callers), steps[..|steps| - 1]);
      RunKeepsInv(callers, steps[..|steps| - 1]);
      NextKeepsClaims(before, steps[|steps| - 1]);
      NextKeepsEffects(before, steps[|steps| - 1]);
      NextKeepsCounts(before, steps[|steps| - 1]);
    }
  }

  // ---------------------------------------------------------- main results

  /**
   * On every run of any number of callers, with crashes: the committed effects of a key
   * number one more than its purges while its completed row exists, and exactly its
   * purges otherwise. So without a purge a key has at most one effect.
   */
  lemma {:induction false} AtMostOneEffect(callers: nat, steps: seq<Step>, id: KeyId)
    ensures var s := Run(Initial(callers), steps);
            && Sum(s.effects, EffectOn(id)) == Sum(s.purged, Is(id)) + (if id in s.rows && s.rows[id].Completed? then 1 else 0)
            && (id !in s.purged ==> Sum(s.effects, EffectOn(id)) <= 1)
  {
    RunKeepsInv(callers, steps);
    var s := Run(Initial(callers), steps);
    assert CountAgrees(s, id);
    if id !in s.purged {
      SumSame(s.purged, Is(id), _ => 0);
      SumZero(s.purged);
    }
  }

  /** While a key row exists its handler is not running, for this or any other hash. */
  lemma {:induction false} NoHandlerBesideRow(callers: nat, steps: seq<Step>, c: nat)
    ensures var s := Run(Initial(callers), steps);
            c < |s.callers| && s.callers[c].Holding? ==>
              && s.callers[c].request.id !in s.rows
              && forall d :: 0 <= d < |s.callers| && d != c && s.callers[d].Holding? ==>
                   s.callers[d].request.id != s.callers[c].request.id
  {
    RunKeepsInv(callers, steps);
  }

  /** Every response handed out, fresh or replayed, is that of a committed effect of an equal request. */
  lemma {:induction false} AnswersAreCommitted(callers: nat, steps: seq<Step>, c: nat)
    ensures var s := Run(Initial(callers), steps);
            c < |s.callers| && s.callers[c].Answered? && (s.callers[c].outcome.Fresh? || s.callers[c].outcome.Replayed?) ==>
              Effect(s.callers[c].request.id, s.callers[c].request.hash, s.callers[c].outcome.response) in s.effects
  {
    RunKeepsInv(callers, steps);
  }

  /**
   * A request whose key has a committed row is answered by that row, on every run: by the
   * response of the key's committed effect when the row is completed and the hashes are
   * equal, as in flight when it is not completed, and as a reuse of the key when the hashes
   * differ, whatever the row's status. No handler runs for it.
   */
  lemma {:induction false} RepeatIsAnsweredByRow(callers: nat, steps: seq<Step>, c: nat)
    requires var s := Run(Initial(callers), steps);
             c < |s.callers| && s.callers[c].Arrived? && s.callers[c].request.id in s.rows
    ensures var s := Run(Initial(callers), steps);
            var request, row := s.callers[c].request, s.rows[s.callers[c].request.id];
            var t := Next(Next(s, Claim(c)), Read(c));
            && t.rows == s.rows && t.effects == s.effects && |t.callers| == |s.callers|
            && (forall d :: 0 <= d < |s.callers| && d != c ==> t.callers[d] == s.callers[d])
            && (row.hash != request.hash ==> t.callers[c] == Answered(request, KeyReuse))
            && (row.hash == request.hash && row.InProgress? ==> t.callers[c] == Answered(request, InFlight))
            && (row.hash == request.hash && row.Completed? ==>
                  && t.callers[c] == Answered(request, Replayed(row.response))
                  && Effect(request.id, request.hash, row.response) in s.effects)
  {
    RunKeepsInv(callers, steps);
    var s := Run(Initial(callers), steps);
    assert !Held(s, s.callers[c].request.id);
  }

  /** A request whose key has no row and is not being handled runs its handler. */
  lemma {:induction false} NewRequestIsHandled(s: System, c: nat, response: Response)
    requires c < |s.callers| && s.callers[c].Arrived? && s.callers[c].request.id !in s.rows
    requires forall d :: 0 <= d < |s.callers| && s.callers[d].Holding? ==> s.callers[d].request.id != s.callers[c].request.id
    ensures var request := s.callers[c].request;
            var t := Next(Next(s, Claim(c)), Commit(c, response));
            && |t.callers| == |s.callers| && t.callers[c] == Answered(request, Fresh(response))
            && t.effects == s.effects + [Effect(request.id, request.hash, response)]
            && t.rows == s.rows[request.id := Completed(request.hash, response)]
  {
    assert !Held(s, s.callers[c].request.id);
  }

  /** Without purges, any two callers answered on one key got the same response to the same request. */
  lemma {:induction false} OneResponsePerKey(callers: nat, steps: seq<Step>, e: Effect, f: Effect)
    requires var s := Run(Initial(callers), steps);
             e in s.effects && f in s.effects && e.id == f.id && e.id !in s.purged
    ensures e == f
  {
    var s := Run(Initial(callers), steps);
    AtMostOneEffect(callers, steps, e.id);
    var i :| 0 <= i < |s.effects| && s.effects[i] == e;
    var j :| 0 <= j < |s.effects| && s.effects[j] == f;
    if i != j {
      TwoTerms(s.effects, EffectOn(e.id), i, j);
    }
  }

  lemma {:induction false} TwoTerms<T>(s: seq<T>, f: T -> int, i: nat, j: nat)
    requires i < |s| && j < |s| && i != j && forall k :: 0 <= k < |s| ==> 0 <= f(s[k])
    ensures f(s[i]) + f(s[j]) <= Sum(s, f)
  {
    var n := |s| - 1;
    var front := s[..n];
    assert forall k :: 0 <= k < n ==> front[k] == s[k];
    if i == n {
      SumBoundsTerm(front, f, j);
    } else if j == n {
      SumBoundsTerm(front, f, i);
    } else {
      TwoTerms(front, f, i, j);
    }
  }
}
