/**
 * Ledger calls at the level of their locks (packages/ledger/src/service.ts): any number
 * of postings, rebuilds and verifications, one statement at a time.
 *
 * A posting claims its key in one unique index and then, if it reverses a transaction,
 * that transaction in another; it locks its accounts in ascending order one by one, reads
 * the versions of their rows, updates the rows one by one, and commits. Only committed
 * rows are visible to others; a claim or a lock is held until its transaction ends.
 */
module LedgerLocks {
  import opened Prelude
  import opened Money
  import opened Chart
  import opened Ledger

  datatype Job = PostJob(tx: Tx) | RebuildJob(account: AccountId) | VerifyJob(account: AccountId) {
    /** The accounts it locks, in order. */
    function Ids(): seq<AccountId> {
      if PostJob? then AccountIds(tx.entries) else [account]
    }
  }

  datatype End =
    | Committed
    | KeyKnown
    | LinkKnown
    | Aborted
    | OptimisticFailure
    | Report(matches: bool)
    | Repaired(drifted: bool)

  datatype Proc =
    | Begin(job: Job)
    | Linking(job: Job)
    | Locking(job: Job, got: nat)
    | Updating(job: Job, versions: map<AccountId, nat>, done: nat, rows: map<AccountId, Balance>)
    | Checking(job: Job, recomputed: Delta)
    | Finished(end: End)

  datatype System = System(db: Db, procs: seq<Proc>)

  datatype Step = Advance(p: nat) | Abort(p: nat)

  predicate HasKey(proc: Proc, key: string) {
    (proc.Linking? || proc.Locking? || proc.Updating?) && proc.job.PostJob? && proc.job.tx.key == key
  }

  /** It has claimed the reversal of transaction k. */
  predicate HasLink(proc: Proc, k: nat) {
    (proc.Locking? || proc.Updating?) && proc.job.PostJob? && proc.job.tx.reverses == Some(k)
  }

  function Held(proc: Proc): seq<AccountId> {
    match proc
    case Locking(job, got) => if got <= |job.Ids()| then job.Ids()[..got] else job.Ids()
    case Updating(job, _, _, _) => job.Ids()
    case Checking(job, _) => job.Ids()
    case _ => []
  }

  datatype Resource = Key(key: string) | Link(tx: nat) | Row(account: AccountId) | Nothing

  /** What a process must obtain before its next statement can return. */
  function Wants(proc: Proc): Resource {
    match proc
    case Begin(job) => if job.PostJob? then Key(job.tx.key) else Nothing
    case Linking(job) => if job.PostJob? && job.tx.reverses.Some? then Link(job.tx.reverses.value) else Nothing
    case Locking(job, got) => if got < |job.Ids()| then Row(job.Ids()[got]) else Nothing
    case _ => Nothing
  }

  predicate Holds(proc: Proc, resource: Resource) {
    match resource
    case Key(key) => HasKey(proc, key)
    case Link(k) => HasLink(proc, k)
    case Row(a) => a in Held(proc)
    case Nothing => false
  }

  predicate Waits(s: System, p: nat, q: nat) {
    p < |s.procs| && q < |s.procs| && p != q && Holds(s.procs[q], Wants(s.procs[p]))
  }

  predicate Blocked(s: System, p: nat) {
    exists q :: 0 <= q < |s.procs| && Waits(s, p, q)
  }

  function SumOf(db: Db, a: AccountId): Delta {
    Delta(Recomputed(db, a, Available), Recomputed(db, a, Pending))
  }

  function Stored(db: Db, a: AccountId): Delta {
    Delta(Projected(db.balances, a).available, Projected(db.balances, a).pending)
  }

  function Versions(db: Db, ids: seq<AccountId>): map<AccountId, nat> {
    map a | a in ids :: Projected(db.balances, a).version
  }

  function With(s: System, p: nat, proc: Proc): System
    requires p < |s.procs|
  {
    s.(procs := s.procs[p := proc])
  }

  /** A verification also finds an account that has been retired. */
  predicate Lockable(accounts: seq<Account>, job: Job, a: AccountId) {
    Visible(accounts, a) || (job.VerifyJob? && a < |accounts|)
  }

  /** The next statement of process p, or nothing if it must wait or has finished. */
  function Forward(s: System, p: nat): System
    requires p < |s.procs|
  {
    if Blocked(s, p) then s
    else
      match s.procs[p]
      case Begin(job) =>
        if !job.PostJob? then With(s, p, Locking(job, 0))
        else With(s, p, if FindKey(s.db.txs, job.tx.key).Some? then Finished(KeyKnown) else Linking(job))
      case Linking(job) =>
        if !job.PostJob? then s
        else With(s, p, if LinkTaken(s.db.txs, job.tx.reverses) then Finished(LinkKnown) else Locking(job, 0))
      case Locking(job, got) =>
        var ids := job.Ids();
        if got < |ids| then
          if Lockable(s.db.accounts, job, ids[got]) then With(s, p, Locking(job, got + 1)) else With(s, p, Finished(Aborted))
        else if job.PostJob? then With(s, p, Updating(job, Versions(s.db, ids), 0, map[]))
        else With(s, p, Checking(job, SumOf(s.db, job.account)))
      case Updating(job, versions, done, rows) =>
        var ids := job.Ids();
        if !job.PostJob? then s
        else if done >= |ids| then
          With(s.(db := s.db.(txs := s.db.txs + [job.tx], balances := s.db.balances + rows)), p, Finished(Committed))
        else
          var a := ids[done];
          if a in versions && versions[a] == Projected(s.db.balances, a).version
          then With(s, p, Updating(job, versions, done + 1, rows[a := BalanceAfter(s.db, job.tx.entries, a)]))
          else With(s, p, Finished(OptimisticFailure))
      case Checking(job, recomputed) =>
        if job.PostJob? then s
        else if job.VerifyJob? then With(s, p, Finished(Report(Stored(s.db, job.account) == recomputed)))
        else
          var row := Balance(recomputed.available, recomputed.pending, Projected(s.db.balances, job.account).version + 1);
          With(s.(db := s.db.(balances := s.db.balances[job.account := row])), p,
               Finished(Repaired(Stored(s.db, job.account) != recomputed)))
      case Finished(_) => s
  }

  /** An abort, at any statement and for any reason, undoes all and releases all. */
  function Next(s: System, step: Step): System {
    match step
    case Advance(p) => if p < |s.procs| then Forward(s, p) else s
    case Abort(p) =>
      if p < |s.procs| && !s.procs[p].Finished? then With(s, p, Finished(Aborted)) else s
  }

  function Initial(accounts: seq<Account>, jobs: seq<Job>): System {
    System(Db(accounts, [], map[], []), seq(|jobs|, i requires 0 <= i < |jobs| => Begin(jobs[i])))
  }

  function Run(s: System, steps: seq<Step>): System {
    if steps == [] then s else Next(Run(s, steps[..|steps| - 1]), steps[|steps| - 1])
  }

  // ------------------------------------------------------------ invariants

  ghost predicate Exclusive(s: System) {
    forall p, q :: 0 <= p < |s.procs| && 0 <= q < |s.procs| && p != q ==> Apart(s.procs[p], s.procs[q])
  }

  /** Two processes hold no key, no link and no account together. */
  ghost predicate Apart(x: Proc, y: Proc) {
    && (forall key :: HasKey(x, key) ==> !HasKey(y, key))
    && (forall k :: HasLink(x, k) ==> !HasLink(y, k))
    && (forall i, j :: 0 <= i < |Held(x)| && 0 <= j < |Held(y)| ==> Held(x)[i] != Held(y)[j])
  }

  /** What a process has read and staged agrees with the committed rows. */
  ghost predicate Fresh(db: Db, proc: Proc) {
    match proc
    case Begin(_) => true
    case Linking(job) => job.PostJob? && FindKey(db.txs, job.tx.key).None?
    case Locking(job, got) => got <= |job.Ids()| && (job.PostJob? ==> Unknown(db.txs, job.tx))
    case Updating(job, versions, done, rows) =>
      && job.PostJob? && done <= |job.Ids()| && Unknown(db.txs, job.tx)
      && (forall k :: 0 <= k < |job.Ids()| ==>
            job.Ids()[k] in versions && versions[job.Ids()[k]] == Projected(db.balances, job.Ids()[k]).version)
      && Staged(db, job.tx.entries, job.Ids()[..done], rows)
    case Checking(job, recomputed) => !job.PostJob? && recomputed == SumOf(db, job.account)
    case Finished(end) => end != OptimisticFailure && end != Report(false) && end != Repaired(true)
  }

  /** Neither its key nor what it reverses is among the committed transactions. */
  predicate Unknown(txs: seq<Tx>, tx: Tx) {
    FindKey(txs, tx.key).None? && !LinkTaken(txs, tx.reverses)
  }

  /** No transaction is reversed twice. */
  ghost predicate LinksDistinct(txs: seq<Tx>) {
    forall i, j :: 0 <= i < j < |txs| && txs[i].reverses.Some? ==> txs[i].reverses != txs[j].reverses
  }

  ghost predicate Staged(db: Db, entries: seq<Entry>, ids: seq<AccountId>, rows: map<AccountId, Balance>) {
    StagedBy(AfterEntries(db, entries), ids, rows)
  }

  function AfterEntries(db: Db, entries: seq<Entry>): AccountId -> Balance {
    (a: AccountId) => BalanceAfter(db, entries, a)
  }

  /** The rows are those of the ids, each with its target. */
  ghost predicate StagedBy(target: AccountId -> Balance, ids: seq<AccountId>, rows: map<AccountId, Balance>) {
    && (forall a :: a in rows ==> a in ids)
    && (forall k :: 0 <= k < |ids| ==> ids[k] in rows && rows[ids[k]] == target(ids[k]))
  }

  ghost predicate Inv(s: System) {
    && Consistent(s.db) && KeysDistinct(s.db.txs) && LinksDistinct(s.db.txs) && Exclusive(s)
    && forall p :: 0 <= p < |s.procs| ==> Fresh(s.db, s.procs[p])
  }

  lemma {:induction false} NotBlocked(s: System, p: nat, q: nat)
    requires p < |s.procs| && q < |s.procs| && p != q && !Blocked(s, p)
    ensures !Holds(s.procs[q], Wants(s.procs[p]))
  {
    assert !Waits(s, p, q);
  }

  /** A process that takes what it wanted, and nothing else, stays apart from the others. */
  lemma {:induction false} TakingKeepsApart(x: Proc, x': Proc, y: Proc)
    requires Apart(x, y) && !Holds(y, Wants(x))
    requires forall key :: HasKey(x', key) ==> HasKey(x, key) || Wants(x) == Key(key)
    requires forall k :: HasLink(x', k) ==> HasLink(x, k) || Wants(x) == Link(k)
    requires forall i :: 0 <= i < |Held(x')| ==> Held(x')[i] in Held(x) || Wants(x) == Row(Held(x')[i])
    ensures Apart(x', y) && Apart(y, x')
  {
  }

  lemma {:induction false} TakesItsWant(s: System, p: nat)
    requires p < |s.procs|
    ensures var x, x' := s.procs[p], Forward(s, p).procs[p];
            && (forall key :: HasKey(x', key) ==> HasKey(x, key) || Wants(x) == Key(key))
            && (forall k :: HasLink(x', k) ==> HasLink(x, k) || Wants(x) == Link(k))
            && forall i :: 0 <= i < |Held(x')| ==> Held(x')[i] in Held(x) || Wants(x) == Row(Held(x')[i])
  {
    match s.procs[p]
    case Locking(job, got) =>
      if got < |job.Ids()| {
        assert job.Ids()[..got + 1] == job.Ids()[..got] + [job.Ids()[got]];
      }
    case _ =>
  }

  lemma {:induction false} ForwardKeepsExclusive(s: System, p: nat)
    requires Exclusive(s) && p < |s.procs|
    ensures Exclusive(Forward(s, p))
  {
    if !Blocked(s, p) {
      var t := Forward(s, p);
      assert forall r :: 0 <= r < |s.procs| && r != p ==> t.procs[r] == s.procs[r];
      forall q | 0 <= q < |s.procs| && q != p
        ensures Apart(t.procs[p], t.procs[q]) && Apart(t.procs[q], t.procs[p])
      {
        NotBlocked(s, p, q);
        TakesItsWant(s, p);
        TakingKeepsApart(s.procs[p], t.procs[p], s.procs[q]);
      }
    }
  }

  /** db' differs from db at most in the rows, entries, keys and links that x holds. */
  ghost predicate OnlyTouches(db: Db, db': Db, x: Proc) {
    && db'.accounts == db.accounts
    && (forall a: AccountId :: a !in Held(x) ==>
          Projected(db'.balances, a) == Projected(db.balances, a) && SumOf(db', a) == SumOf(db, a))
    && (forall key :: !HasKey(x, key) && FindKey(db.txs, key).None? ==> FindKey(db'.txs, key).None?)
    && (forall k: nat :: !HasLink(x, k) && !LinkTaken(db.txs, Some(k)) ==> !LinkTaken(db'.txs, Some(k)))
  }

  /** What is unknown to y stays so when x commits what y does not hold. */
  lemma {:induction false} StaysUnknown(db: Db, db': Db, x: Proc, y: Proc)
    requires OnlyTouches(db, db', x) && Apart(x, y) && (y.Locking? || y.Updating?) && y.job.PostJob?
    requires Unknown(db.txs, y.job.tx)
    ensures Unknown(db'.txs, y.job.tx)
  {
    assert HasKey(y, y.job.tx.key);
    if y.job.tx.reverses.Some? {
      assert HasLink(y, y.job.tx.reverses.value);
    }
  }

  lemma {:induction false} OthersStayFresh(db: Db, db': Db, x: Proc, y: Proc)
    requires OnlyTouches(db, db', x) && Apart(x, y) && Fresh(db, y)
    ensures Fresh(db', y)
  {
    match y
    case Updating(job, versions, done, rows) =>
      StaysUnknown(db, db', x, y);
      forall k | 0 <= k < |job.Ids()|
        ensures Projected(db'.balances, job.Ids()[k]) == Projected(db.balances, job.Ids()[k])
      {
        assert Held(y)[k] !in Held(x);
      }
      assert forall k :: 0 <= k < done ==>
          BalanceAfter(db', job.tx.entries, job.Ids()[k]) == BalanceAfter(db, job.tx.entries, job.Ids()[k]);
    case Linking(job) => assert HasKey(y, job.tx.key);
    case Locking(job, got) =>
      if job.PostJob? {
        StaysUnknown(db, db', x, y);
      }
    case Checking(job, _) =>
      assert Held(y)[0] == job.account && job.account !in Held(x);
    case _ =>
  }

  lemma {:induction false} FindKeyPush(txs: seq<Tx>, tx: Tx, key: string)
    ensures FindKey(txs + [tx], key).None? <==> FindKey(txs, key).None? && tx.key != key
  {
    assert (txs + [tx])[..|txs|] == txs;
  }

  lemma {:induction false} LinkTakenPush(txs: seq<Tx>, tx: Tx, link: Option<nat>)
    ensures LinkTaken(txs + [tx], link) <==> LinkTaken(txs, link) || (link.Some? && tx.reverses == link)
  {
    var all := txs + [tx];
    if LinkTaken(txs, link) {
      var i :| 0 <= i < |txs| && txs[i].reverses == link;
      assert all[i].reverses == link;
    }
    assert all[|txs|] == tx;
  }

  lemma {:induction false} LinksDistinctPush(txs: seq<Tx>, tx: Tx)
    requires LinksDistinct(txs) && !LinkTaken(txs, tx.reverses)
    ensures LinksDistinct(txs + [tx])
  {
  }

  /** Committing the staged rows has the effect of one posting. */
  lemma {:induction false} CommitWorks(db: Db, tx: Tx, rows: map<AccountId, Balance>)
    requires Staged(db, tx.entries, AccountIds(tx.entries), rows)
    ensures forall a: AccountId :: Projected(db.balances + rows, a) == Projected(BalancesAfter(db, tx.entries), a)
  {
    var ids := AccountIds(tx.entries);
    forall a: AccountId ensures Projected(db.balances + rows, a) == Projected(BalancesAfter(db, tx.entries), a) {
      if a in ids {
        var k :| 0 <= k < |ids| && ids[k] == a;
      }
    }
  }

  function CommitDb(db: Db, tx: Tx, rows: map<AccountId, Balance>): Db {
    db.(txs := db.txs + [tx], balances := db.balances + rows)
  }

  lemma {:induction false} CommitKeepsConsistent(db: Db, tx: Tx, rows: map<AccountId, Balance>)
    requires Consistent(db) && Staged(db, tx.entries, AccountIds(tx.entries), rows)
    ensures Consistent(CommitDb(db, tx, rows))
  {
    var after := CommitDb(db, tx, rows);
    CommitWorks(db, tx, rows);
    forall a: AccountId, bucket
      ensures Projected(after.balances, a).In(bucket) == Recomputed(after, a, bucket)
    {
      CommitConsistent(db, tx, a, bucket);
      assert Recomputed(after, a, bucket) == Recomputed(Commit(db, tx), a, bucket);
    }
  }

  lemma {:induction false} CommitTouchesOwn(db: Db, x: Proc)
    requires x.Updating? && x.job.PostJob? && Staged(db, x.job.tx.entries, x.job.Ids(), x.rows)
    ensures OnlyTouches(db, CommitDb(db, x.job.tx, x.rows), x)
  {
    var tx, after := x.job.tx, CommitDb(db, x.job.tx, x.rows);
    AccountIdsAscend(tx.entries);
    EntriesPush(db.txs, tx);
    forall a: AccountId | a !in Held(x)
      ensures Projected(after.balances, a) == Projected(db.balances, a) && SumOf(after, a) == SumOf(db, a)
    {
      SumUntouched(db, tx, a, Available);
      SumUntouched(db, tx, a, Pending);
    }
    forall key | !HasKey(x, key) && FindKey(db.txs, key).None? ensures FindKey(after.txs, key).None? {
      FindKeyPush(db.txs, tx, key);
    }
    forall k: nat | !HasLink(x, k) && !LinkTaken(db.txs, Some(k)) ensures !LinkTaken(after.txs, Some(k)) {
      LinkTakenPush(db.txs, tx, Some(k));
    }
  }

  lemma {:induction false} SumUntouched(db: Db, tx: Tx, a: AccountId, bucket: Bucket)
    requires a !in AccountIds(tx.entries)
    ensures Moved(Entries(db.txs + [tx]), a, NormalOf(db.accounts, a), bucket)
         == Moved(Entries(db.txs), a, NormalOf(db.accounts, a), bucket)
  {
    AccountIdsAscend(tx.entries);
    EntriesPush(db.txs, tx);
    SumConcat(Entries(db.txs), tx.entries, Moves(a, NormalOf(db.accounts, a), bucket));
    UntouchedStays(tx.entries, a, NormalOf(db.accounts, a), bucket);
  }

  /** A step of p changes the committed rows only where p holds them, and consistently. */
  lemma {:induction false} ForwardKeepsRows(s: System, p: nat)
    requires Inv(s) && p < |s.procs|
    ensures var t := Forward(s, p);
            && OnlyTouches(s.db, t.db, s.procs[p]) && Consistent(t.db)
            && KeysDistinct(t.db.txs) && LinksDistinct(t.db.txs)
  {
    var x, t := s.procs[p], Forward(s, p);
    assert Fresh(s.db, x);
    if t.db == s.db {
    } else if x.Updating? {
      assert x.job.Ids()[..x.done] == x.job.Ids();
      CommitKeepsConsistent(s.db, x.job.tx, x.rows);
      CommitTouchesOwn(s.db, x);
      FindKeyFinds(s.db.txs, x.job.tx.key);
      LinksDistinctPush(s.db.txs, x.job.tx);
    } else {
      RepairKeepsRows(s.db, x, t.db);
    }
  }

  lemma {:induction false} RepairKeepsRows(db: Db, x: Proc, after: Db)
    requires Consistent(db) && x.Checking? && x.job.RebuildJob? && x.recomputed == SumOf(db, x.job.account)
    requires var version := Projected(db.balances, x.job.account).version + 1;
             after == db.(balances := db.balances[x.job.account :=
                            Balance(x.recomputed.available, x.recomputed.pending, version)])
    ensures OnlyTouches(db, after, x) && Consistent(after)
  {
    forall a: AccountId, bucket
      ensures Projected(after.balances, a).In(bucket) == Recomputed(after, a, bucket)
      ensures Recomputed(after, a, bucket) == Recomputed(db, a, bucket)
    {
      assert Projected(db.balances, a).In(bucket) == Recomputed(db, a, bucket);
    }
    assert Held(x) == [x.job.account];
    forall a: AccountId ensures SumOf(after, a) == SumOf(db, a) {
      assert Recomputed(after, a, Available) == Recomputed(db, a, Available);
      assert Recomputed(after, a, Pending) == Recomputed(db, a, Pending);
    }
  }

  lemma {:induction false} StoredIsSum(db: Db, a: AccountId)
    requires Consistent(db)
    ensures Stored(db, a) == SumOf(db, a)
  {
    assert Projected(db.balances, a).In(Available) == Recomputed(db, a, Available);
    assert Projected(db.balances, a).In(Pending) == Recomputed(db, a, Pending);
  }

  lemma {:induction false} UpdatingStaysFresh(s: System, p: nat)
    requires p < |s.procs| && Fresh(s.db, s.procs[p]) && s.procs[p].Updating?
    ensures Fresh(Forward(s, p).db, Forward(s, p).procs[p])
  {
    var x := s.procs[p];
    var ids := x.job.Ids();
    if !Blocked(s, p) && x.done < |ids| {
      AccountIdsAscend(x.job.tx.entries);
      StageOne(AfterEntries(s.db, x.job.tx.entries), ids, x.done, x.rows);
    }
  }

  /** One more row is staged, and the others stand. */
  lemma {:induction false} StageOne(target: AccountId -> Balance, ids: seq<AccountId>, k: nat, rows: map<AccountId, Balance>)
    requires k < |ids| && Ascending(ids) && StagedBy(target, ids[..k], rows)
    ensures StagedBy(target, ids[..k + 1], rows[ids[k] := target(ids[k])])
  {
    var more, after := ids[..k + 1], rows[ids[k] := target(ids[k])];
    forall i | 0 <= i < |more| ensures more[i] in after && after[more[i]] == target(more[i]) {
      if i < k {
        assert ids[..k][i] == more[i];
      }
    }
    forall a | a in after ensures a in more {
      if a != ids[k] {
        var i :| 0 <= i < k && ids[..k][i] == a;
        assert more[i] == a;
      } else {
        assert more[k] == a;
      }
    }
  }

  lemma {:induction false} SelfStaysFresh(s: System, p: nat)
    requires Inv(s) && p < |s.procs|
    ensures Fresh(Forward(s, p).db, Forward(s, p).procs[p])
  {
    var x := s.procs[p];
    assert Fresh(s.db, x);
    match x
    case Checking(job, _) => StoredIsSum(s.db, job.account);
    case Updating(_, _, _, _) => UpdatingStaysFresh(s, p);
    case _ =>
  }

  lemma {:induction false} NextKeepsInv(s: System, step: Step)
    requires Inv(s)
    ensures Inv(Next(s, step))
  {
    if step.p < |s.procs| {
      if step.Advance? {
        var p, t := step.p, Forward(s, step.p);
        ForwardKeepsExclusive(s, p);
        ForwardKeepsRows(s, p);
        forall q | 0 <= q < |t.procs| ensures Fresh(t.db, t.procs[q]) {
          if q == p {
            SelfStaysFresh(s, p);
          } else {
            assert t.procs[q] == s.procs[q] && Fresh(s.db, s.procs[q]) && Apart(s.procs[p], s.procs[q]);
            OthersStayFresh(s.db, t.db, s.procs[p], s.procs[q]);
          }
        }
      } else {
        AbortKeepsInv(s, step.p);
      }
    }
  }

  lemma {:induction false} AbortKeepsInv(s: System, p: nat)
    requires Inv(s) && p < |s.procs|
    ensures Inv(Next(s, Abort(p)))
  {
    var t := Next(s, Abort(p));
    forall q, r | 0 <= q < |t.procs| && 0 <= r < |t.procs| && q != r ensures Apart(t.procs[q], t.procs[r]) {
      assert Apart(s.procs[q], s.procs[r]);
    }
    forall q | 0 <= q < |t.procs| ensures Fresh(t.db, t.procs[q]) {
      assert Fresh(s.db, s.procs[q]);
    }
  }

  lemma {:induction false} RunKeepsInv(accounts: seq<Account>, jobs: seq<Job>, steps: seq<Step>)
    ensures Inv(Run(Initial(accounts, jobs), steps))
  {
    if steps == [] {
      assert Entries([]) == [];
      assert Consistent(Initial(accounts, jobs).db) by {
        assert forall a: AccountId, bucket :: Recomputed(Initial(accounts, jobs).db, a, bucket) == 0;
      }
    } else {
      RunKeepsInv(accounts, jobs, steps[..|steps| - 1]);
      NextKeepsInv(Run(Initial(accounts, jobs), steps[..|steps| - 1]), steps[|steps| - 1]);
    }
  }

  /**
   * On every interleaving: each committed projection is the signed sum of the committed
   * entries, every verification reports a match, no rebuild finds drift, the version
   * check never fails, no key is committed twice, and no transaction is reversed twice.
   */
  lemma {:induction false} InterleavingsAreConsistent(accounts: seq<Account>, jobs: seq<Job>, steps: seq<Step>)
    ensures var s := Run(Initial(accounts, jobs), steps);
            && Consistent(s.db) && KeysDistinct(s.db.txs) && LinksDistinct(s.db.txs)
            && forall p :: 0 <= p < |s.procs| && s.procs[p].Finished? ==>
                 s.procs[p].end != OptimisticFailure && s.procs[p].end != Report(false)
                 && s.procs[p].end != Repaired(true)
  {
    RunKeepsInv(accounts, jobs, steps);
    var s := Run(Initial(accounts, jobs), steps);
    forall p | 0 <= p < |s.procs| && s.procs[p].Finished?
      ensures s.procs[p].end != OptimisticFailure && s.procs[p].end != Report(false)
              && s.procs[p].end != Repaired(true)
    {
      assert Fresh(s.db, s.procs[p]);
    }
  }

  // ------------------------------------------------------ deadlock freedom

  /** Everything a process can ever wait for comes after everything it holds. */
  function Rank(proc: Proc, top: int): int {
    match Wants(proc)
    case Key(_) => 0
    case Link(_) => 1
    case Row(a) => a + 2
    case Nothing => top
  }

  /** Above every account that is held or wanted. */
  function Top(procs: seq<Proc>): (top: nat)
    ensures top > 1
    ensures forall p :: 0 <= p < |procs| && Wants(procs[p]).Row? ==> Wants(procs[p]).account + 2 < top
  {
    if procs == [] then 2
    else
      var n := |procs| - 1;
      var rest := Top(procs[..n]);
      assert forall p :: 0 <= p < n ==> procs[..n][p] == procs[p];
      if Wants(procs[n]).Row? && Wants(procs[n]).account + 3 > rest then Wants(procs[n]).account + 3 else rest
  }

  /** A process waits only for one of higher rank. */
  lemma {:induction false} WaitingClimbs(s: System, p: nat, q: nat)
    requires Inv(s) && Waits(s, p, q)
    ensures Rank(s.procs[p], Top(s.procs)) < Rank(s.procs[q], Top(s.procs))
  {
    var x, y := s.procs[p], s.procs[q];
    assert Fresh(s.db, y);
    if Wants(x).Row? && y.Locking? && y.got < |y.job.Ids()| {
      if y.job.PostJob? {
        AccountIdsAscend(y.job.tx.entries);
      }
      var ids := y.job.Ids();
      var k :| 0 <= k < |ids[..y.got]| && ids[..y.got][k] == Wants(x).account;
      assert ids[k] < ids[y.got];
    }
  }

  /** path[0] waits for path[1], path[1] for path[2], and so on. */
  predicate WaitPath(s: System, path: seq<nat>) {
    forall i :: 0 <= i < |path| - 1 ==> Waits(s, path[i], path[i + 1])
  }

  lemma {:induction false} FrontOfPath(s: System, path: seq<nat>)
    requires WaitPath(s, path) && |path| >= 1
    ensures WaitPath(s, path[..|path| - 1])
  {
    var front := path[..|path| - 1];
    forall i | 0 <= i < |front| - 1 ensures Waits(s, front[i], front[i + 1]) {
      assert Waits(s, path[i], path[i + 1]);
    }
  }

  lemma {:induction false} PathsClimb(s: System, path: seq<nat>)
    requires Inv(s) && WaitPath(s, path) && |path| >= 2
    ensures path[0] < |s.procs| && path[|path| - 1] < |s.procs|
    ensures Rank(s.procs[path[0]], Top(s.procs)) < Rank(s.procs[path[|path| - 1]], Top(s.procs))
  {
    var n := |path| - 1;
    assert Waits(s, path[n - 1], path[n]);
    WaitingClimbs(s, path[n - 1], path[n]);
    if n > 1 {
      FrontOfPath(s, path);
      PathsClimb(s, path[..n]);
    }
  }

  /** No reachable state has a cycle of processes waiting for each other. */
  lemma {:induction false} NoWaitCycle(accounts: seq<Account>, jobs: seq<Job>, steps: seq<Step>, path: seq<nat>)
    requires WaitPath(Run(Initial(accounts, jobs), steps), path) && |path| >= 2
    ensures path[0] != path[|path| - 1]
  {
    RunKeepsInv(accounts, jobs, steps);
    PathsClimb(Run(Initial(accounts, jobs), steps), path);
  }

  predicate Unfinished(s: System, p: nat) {
    p < |s.procs| && !s.procs[p].Finished?
  }

  /** Following the waits from p leads to an unfinished process that waits for nobody. */
  lemma {:induction false} Leader(s: System, p: nat) returns (r: nat)
    requires Inv(s) && Unfinished(s, p)
    ensures Unfinished(s, r) && !Blocked(s, r)
    decreases Top(s.procs) - Rank(s.procs[p], Top(s.procs))
  {
    if Blocked(s, p) {
      var q :| 0 <= q < |s.procs| && Waits(s, p, q);
      WaitingClimbs(s, p, q);
      r := Leader(s, q);
    } else {
      r := p;
    }
  }

  lemma {:induction false} ForwardMoves(s: System, p: nat)
    requires Unfinished(s, p) && !Blocked(s, p) && Fresh(s.db, s.procs[p])
    ensures Next(s, Advance(p)).procs[p] != s.procs[p]
  {
  }

  /** While some call is unfinished, some unfinished call can execute its next statement. */
  lemma {:induction false} SomeoneCanStep(accounts: seq<Account>, jobs: seq<Job>, steps: seq<Step>, p: nat)
    requires Unfinished(Run(Initial(accounts, jobs), steps), p)
    ensures var s := Run(Initial(accounts, jobs), steps);
            exists r :: Unfinished(s, r) && Next(s, Advance(r)) != s
  {
    var s := Run(Initial(accounts, jobs), steps);
    RunKeepsInv(accounts, jobs, steps);
    var r := Leader(s, p);
    assert Fresh(s.db, s.procs[r]);
    ForwardMoves(s, r);
  }

  // ------------------------------------------------- every call has its end

  /** How many statements a call may still execute. */
  function Left(): Proc -> int {
    (proc: Proc) => LeftOf(proc)
  }

  function LeftOf(proc: Proc): int {
    match proc
    case Begin(job) => 2 * |job.Ids()| + 4
    case Linking(job) => 2 * |job.Ids()| + 3
    case Locking(job, got) => if got <= |job.Ids()| then 2 * |job.Ids()| + 2 - got else 1
    case Updating(job, _, done, _) => if done <= |job.Ids()| then |job.Ids()| + 1 - done else 1
    case Checking(_, _) => 1
    case Finished(_) => 0
  }

  lemma {:induction false} ForwardSpends(s: System, p: nat)
    requires p < |s.procs| && Fresh(s.db, s.procs[p])
    ensures var t := Forward(s, p);
            && t.procs == s.procs[p := t.procs[p]]
            && (t != s ==> LeftOf(t.procs[p]) < LeftOf(s.procs[p]))
  {
  }

  /** How many steps of a run changed anything. */
  function Executed(s: System, steps: seq<Step>): nat {
    if steps == [] then 0
    else
      var before := Run(s, steps[..|steps| - 1]);
      Executed(s, steps[..|steps| - 1]) + if Next(before, steps[|steps| - 1]) != before then 1 else 0
  }

  lemma {:induction false} StepSpends(s: System, step: Step)
    requires Inv(s)
    ensures Sum(Next(s, step).procs, Left()) + (if Next(s, step) != s then 1 else 0) <= Sum(s.procs, Left())
  {
    if step.p < |s.procs| && Next(s, step) != s {
      assert Fresh(s.db, s.procs[step.p]);
      if step.Advance? {
        ForwardSpends(s, step.p);
      }
      SumSet(s.procs, step.p, Next(s, step).procs[step.p], Left());
    }
  }

  /**
   * However the calls are interleaved, only so many steps of a run change anything; and
   * while a call is unfinished one more can (SomeoneCanStep). So every call has its end.
   */
  lemma {:induction false} StatementsAreBounded(accounts: seq<Account>, jobs: seq<Job>, steps: seq<Step>)
    ensures var start := Initial(accounts, jobs);
            Executed(start, steps) + Sum(Run(start, steps).procs, Left()) <= Sum(start.procs, Left())
  {
    if steps != [] {
      StatementsAreBounded(accounts, jobs, steps[..|steps| - 1]);
      RunKeepsInv(accounts, jobs, steps[..|steps| - 1]);
      StepSpends(Run(Initial(accounts, jobs), steps[..|steps| - 1]), steps[|steps| - 1]);
    }
  }

  /** How a call of a job ended, if it did and was not aborted from outside. */
  ghost predicate Truly(db: Db, job: Job, proc: Proc) {
    match proc
    case Begin(j) => j == job
    case Linking(j) => j == job
    case Locking(j, _) => j == job
    case Updating(j, _, _, _) => j == job
    case Checking(j, _) => j == job
    case Finished(end) =>
      match job
      case PostJob(tx) =>
        || (end.Committed? && tx in db.txs)
        || (end.KeyKnown? && exists i :: 0 <= i < |db.txs| && db.txs[i].key == tx.key)
        || (end.LinkKnown? && tx.reverses.Some? && exists i :: 0 <= i < |db.txs| && db.txs[i].reverses == tx.reverses)
      case RebuildJob(_) => end == Repaired(false)
      case VerifyJob(_) => end == Report(true)
  }

  ghost predicate CanLock(accounts: seq<Account>, job: Job) {
    forall k :: 0 <= k < |job.Ids()| ==> Lockable(accounts, job, job.Ids()[k])
  }

  lemma {:induction false} OwnStepIsTrue(s: System, p: nat, job: Job)
    requires Inv(s) && p < |s.procs| && Truly(s.db, job, s.procs[p]) && CanLock(s.db.accounts, job)
    ensures Truly(Forward(s, p).db, job, Forward(s, p).procs[p])
  {
    assert Fresh(s.db, s.procs[p]);
    match s.procs[p]
    case Begin(j) =>
      if j.PostJob? {
        FindKeyFinds(s.db.txs, j.tx.key);
      }
    case Updating(j, versions, done, rows) =>
      if j.PostJob? {
        assert (s.db.txs + [j.tx])[|s.db.txs|] == j.tx;
      }
    case Checking(j, _) => StoredIsSum(s.db, j.account);
    case _ =>
  }

  lemma {:induction false} MoreStaysTrue(db: Db, after: Db, job: Job, proc: Proc)
    requires Truly(db, job, proc) && db.txs <= after.txs
    ensures Truly(after, job, proc)
  {
    assert forall i :: 0 <= i < |db.txs| ==> after.txs[i] == db.txs[i];
  }

  lemma {:induction false} NextIsTrue(s: System, step: Step, p: nat, job: Job)
    requires Inv(s) && p < |s.procs| && Truly(s.db, job, s.procs[p]) && CanLock(s.db.accounts, job) && step != Abort(p)
    ensures var t := Next(s, step);
            t.db.accounts == s.db.accounts && |t.procs| == |s.procs| && Truly(t.db, job, t.procs[p])
  {
    var t := Next(s, step);
    if step.p < |s.procs| {
      if step == Advance(p) {
        OwnStepIsTrue(s, p, job);
      } else {
        MoreStaysTrue(s.db, t.db, job, s.procs[p]);
      }
    }
  }

  /**
   * A call whose accounts can be locked and that nobody aborts ends truly, on every
   * interleaving: a posting is committed, or finds its key or the reversal that it wants to
   * make committed already; a verification matches; and a rebuild finds no drift.
   */
  lemma {:induction false} CallsEndTruly(accounts: seq<Account>, jobs: seq<Job>, steps: seq<Step>, p: nat)
    requires p < |jobs| && CanLock(accounts, jobs[p]) && Abort(p) !in steps
    ensures var s := Run(Initial(accounts, jobs), steps);
            s.db.accounts == accounts && |s.procs| == |jobs| && Truly(s.db, jobs[p], s.procs[p])
  {
    if steps != [] {
      var front, last := steps[..|steps| - 1], steps[|steps| - 1];
      assert last in steps;
      CallsEndTruly(accounts, jobs, front, p);
      RunKeepsInv(accounts, jobs, front);
      NextIsTrue(Run(Initial(accounts, jobs), front), last, p, jobs[p]);
    }
  }
}
