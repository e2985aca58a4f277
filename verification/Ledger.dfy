/**
 * The double-entry ledger of one tenant (packages/ledger/src/service.ts): what posting
 * a transaction does to the tables, and what every run of postings, reversals and
 * projection rebuilds keeps.
 *
 * Accounts are numbered in the order of their UUIDs and transactions in the order in
 * which they commit. Every transaction on the database commits whole or not at all.
 */
module Ledger {
  import opened Prelude
  import opened Money
  import opened Chart

  type AccountId = nat

  datatype Bucket = Available | Pending

  datatype Account = Account(name: string, currency: Currency, normal: Side, deleted: bool)

  datatype Entry = Entry(account: AccountId, side: Side, amount: int, currency: Currency, bucket: Bucket)

  /** A row of balance_projections. */
  datatype Balance = Balance(available: int, pending: int, version: nat) {
    function In(bucket: Bucket): int {
      if bucket.Available? then available else pending
    }
  }

  datatype Source = Source(kind: string, id: string)

  datatype Tx = Tx(key: string, reason: string, source: Source, reverses: Option<nat>, entries: seq<Entry>)

  /** A request to post `tx` with the accounts that must not end below zero. */
  datatype PostInput = PostInput(tx: Tx, guarded: set<AccountId>)

  /** The tables, and the keys of the transactions whose onPosted hook has committed. */
  datatype Db = Db(
    accounts: seq<Account>,
    txs: seq<Tx>,
    balances: map<AccountId, Balance>,
    hooks: seq<string>)

  datatype Fault =
    | UnknownReason
    | BadKey
    | NoSource
    | TooFewEntries
    | NotPositive
    | Unbalanced(nets: map<Currency, int>)
    | AlreadyReversed
    | AccountsNotFound(missing: seq<AccountId>)
    | CurrencyMismatch(account: AccountId)
    | Insufficient(account: AccountId, bucket: Bucket, resulting: int)
    | KeyConflict
    | HookFailed

  datatype Outcome = Posted(tx: nat) | Replayed(tx: nat) | Refused(fault: Fault)

  const LEDGER_REASONS: seq<string> :=
    ["payment", "refund", "fee", "payout", "transfer", "adjustment", "settlement", "reversal",
     "reconciliation", "reserve", "dispute"]

  // -------------------------------------------------------------- entries

  /** What an entry adds to the debits less the credits of a currency. */
  function NetOf(c: Currency): Entry -> int {
    (e: Entry) => if e.currency != c then 0 else if e.side == Debit then e.amount else -e.amount
  }

  function Net(entries: seq<Entry>, c: Currency): int {
    Sum(entries, NetOf(c))
  }

  /** What an entry adds to a bucket of account a, whose normal side is given. */
  function Moves(a: AccountId, normal: Side, bucket: Bucket): Entry -> int {
    (e: Entry) =>
      if e.account != a || e.bucket != bucket then 0
      else if e.side == normal then e.amount
      else -e.amount
  }

  function Moved(entries: seq<Entry>, a: AccountId, normal: Side, bucket: Bucket): int {
    Sum(entries, Moves(a, normal, bucket))
  }

  /** All the entries of the ledger, in the order of posting. */
  function Entries(txs: seq<Tx>): seq<Entry> {
    if txs == [] then [] else Entries(txs[..|txs| - 1]) + txs[|txs| - 1].entries
  }

  /** ids with id added, in ascending order and once. */
  function InsertId(id: AccountId, ids: seq<AccountId>): seq<AccountId> {
    if ids == [] then [id]
    else if id < ids[0] then [id] + ids
    else if id == ids[0] then ids
    else [ids[0]] + InsertId(id, ids[1..])
  }

  /** The accounts of the entries, ascending: the order in which they are locked. */
  function AccountIds(entries: seq<Entry>): seq<AccountId> {
    if entries == [] then []
    else InsertId(entries[|entries| - 1].account, AccountIds(entries[..|entries| - 1]))
  }

  ghost predicate Ascending(ids: seq<AccountId>) {
    forall i, j :: 0 <= i < j < |ids| ==> ids[i] < ids[j]
  }

  lemma {:induction false} InsertIdWorks(id: AccountId, ids: seq<AccountId>)
    requires Ascending(ids)
    ensures Ascending(InsertId(id, ids))
    ensures forall x :: x in InsertId(id, ids) <==> x == id || x in ids
  {
    if ids != [] && ids[0] < id {
      InsertIdWorks(id, ids[1..]);
      var rest := InsertId(id, ids[1..]);
      assert InsertId(id, ids) == [ids[0]] + rest;
      forall i, j | 0 <= i < j < |rest| + 1
        ensures ([ids[0]] + rest)[i] < ([ids[0]] + rest)[j]
      {
        assert rest[j - 1] in rest;
      }
      assert ids == [ids[0]] + ids[1..];
    }
  }

  /** Every account that an entry touches is locked, once, in ascending order. */
  lemma {:induction false} AccountIdsAscend(entries: seq<Entry>)
    ensures Ascending(AccountIds(entries))
    ensures forall i :: 0 <= i < |entries| ==> entries[i].account in AccountIds(entries)
    ensures forall a :: a in AccountIds(entries) ==> Touches(entries, a)
  {
    if entries != [] {
      var n := |entries| - 1;
      AccountIdsAscend(entries[..n]);
      InsertIdWorks(entries[n].account, AccountIds(entries[..n]));
      assert forall i :: 0 <= i < n ==> entries[..n][i] == entries[i];
      forall a | a in AccountIds(entries) ensures Touches(entries, a) {
        if a != entries[n].account {
          var i :| 0 <= i < n && entries[..n][i].account == a;
          assert entries[i].account == a;
        }
      }
    }
  }

  ghost predicate Touches(entries: seq<Entry>, a: AccountId) {
    exists i :: 0 <= i < |entries| && entries[i].account == a
  }

  lemma {:induction false} UntouchedStays(entries: seq<Entry>, a: AccountId, normal: Side, bucket: Bucket)
    requires !Touches(entries, a)
    ensures Moved(entries, a, normal, bucket) == 0
  {
    if entries != [] {
      var n := |entries| - 1;
      assert entries[n].account != a;
      assert !Touches(entries[..n], a);
      UntouchedStays(entries[..n], a, normal, bucket);
    }
  }

  // --------------------------------------------------------- one posting

  function InputFault(tx: Tx): Option<Fault> {
    if tx.reason !in LEDGER_REASONS then Some(UnknownReason)
    else if |tx.key| < 8 || |tx.key| > 200 then Some(BadKey)
    else if tx.source.kind == "" || tx.source.id == "" then Some(NoSource)
    else if |tx.entries| < 2 then Some(TooFewEntries)
    else if exists i :: 0 <= i < |tx.entries| && tx.entries[i].amount <= 0 then Some(NotPositive)
    else if Nets(tx.entries) != map[] then Some(Unbalanced(Nets(tx.entries)))
    else None
  }

  /** The currencies in which debits and credits differ, with the difference. */
  function Nets(entries: seq<Entry>): map<Currency, int> {
    map c: Currency | Net(entries, c) != 0 :: Net(entries, c)
  }

  function FindKey(txs: seq<Tx>, key: string): Option<nat> {
    if txs == [] then None
    else if txs[|txs| - 1].key == key then Some(|txs| - 1)
    else FindKey(txs[..|txs| - 1], key)
  }

  /** Some transaction is already the reversal of the same one. */
  predicate LinkTaken(txs: seq<Tx>, reverses: Option<nat>) {
    reverses.Some? && exists i :: 0 <= i < |txs| && txs[i].reverses == reverses
  }

  /** The causal fingerprint: everything but the order of the entries. */
  ghost predicate SameFingerprint(stored: Tx, requested: Tx) {
    && stored.reason == requested.reason
    && stored.source == requested.source
    && stored.reverses == requested.reverses
    && multiset(stored.entries) == multiset(requested.entries)
  }

  predicate Visible(accounts: seq<Account>, a: AccountId) {
    a < |accounts| && !accounts[a].deleted
  }

  function Missing(accounts: seq<Account>, ids: seq<AccountId>): seq<AccountId> {
    if ids == [] then []
    else (if Visible(accounts, ids[0]) then [] else [ids[0]]) + Missing(accounts, ids[1..])
  }

  /** The first entry whose currency is not its account's. */
  function FirstMismatch(accounts: seq<Account>, entries: seq<Entry>): Option<AccountId>
    requires forall i :: 0 <= i < |entries| ==> entries[i].account < |accounts|
  {
    if entries == [] then None
    else if accounts[entries[0].account].currency != entries[0].currency then Some(entries[0].account)
    else FirstMismatch(accounts, entries[1..])
  }

  /** The stored balance; an account without a row has moved nothing. */
  function Projected(balances: map<AccountId, Balance>, a: AccountId): Balance {
    if a in balances then balances[a] else Balance(0, 0, 0)
  }

  function NormalOf(accounts: seq<Account>, a: AccountId): Side {
    if a < |accounts| then accounts[a].normal else Debit
  }

  datatype Delta = Delta(available: int, pending: int)

  /** What the entries move on account a, bucket by bucket. */
  function Movement(entries: seq<Entry>, accounts: seq<Account>, a: AccountId): Delta {
    Delta(Moved(entries, a, NormalOf(accounts, a), Available), Moved(entries, a, NormalOf(accounts, a), Pending))
  }

  function Shift(row: Balance, d: Delta): Balance {
    Balance(row.available + d.available, row.pending + d.pending, row.version + 1)
  }

  function BalanceAfter(db: Db, entries: seq<Entry>, a: AccountId): Balance {
    Shift(Projected(db.balances, a), Movement(entries, db.accounts, a))
  }

  /** The first guarded account that would end below zero. */
  function FirstShort(db: Db, entries: seq<Entry>, guarded: set<AccountId>, ids: seq<AccountId>): Option<Fault> {
    if ids == [] then None
    else
      var after := BalanceAfter(db, entries, ids[0]);
      if ids[0] in guarded && after.available < 0 then Some(Insufficient(ids[0], Available, after.available))
      else if ids[0] in guarded && after.pending < 0 then Some(Insufficient(ids[0], Pending, after.pending))
      else FirstShort(db, entries, guarded, ids[1..])
  }

  lemma {:induction false} NoneMissing(accounts: seq<Account>, ids: seq<AccountId>)
    ensures Missing(accounts, ids) == [] <==> forall a :: a in ids ==> Visible(accounts, a)
  {
    if ids != [] {
      NoneMissing(accounts, ids[1..]);
      assert ids == [ids[0]] + ids[1..];
    }
  }

  lemma {:induction false} AllVisible(accounts: seq<Account>, entries: seq<Entry>)
    requires Missing(accounts, AccountIds(entries)) == []
    ensures forall i :: 0 <= i < |entries| ==> Visible(accounts, entries[i].account)
  {
    AccountIdsAscend(entries);
    NoneMissing(accounts, AccountIds(entries));
  }

  /** Why the transaction would be rolled back after its key was claimed, if it would. */
  function CommitFault(db: Db, input: PostInput, hookOk: bool): Option<Fault> {
    var entries := input.tx.entries;
    var ids := AccountIds(entries);
    if LinkTaken(db.txs, input.tx.reverses) then Some(AlreadyReversed)
    else if Missing(db.accounts, ids) != [] then Some(AccountsNotFound(Missing(db.accounts, ids)))
    else
      AllVisible(db.accounts, entries);
      var mismatch := FirstMismatch(db.accounts, entries);
      if mismatch.Some? then Some(CurrencyMismatch(mismatch.value))
      else
        var short := FirstShort(db, entries, input.guarded, ids);
        if short.Some? then short
        else if !hookOk then Some(HookFailed)
        else None
  }

  function BalancesAfter(db: Db, entries: seq<Entry>): map<AccountId, Balance> {
    var ids := AccountIds(entries);
    map a | a in db.balances.Keys + (set x | x in ids) ::
      if a in ids then BalanceAfter(db, entries, a) else db.balances[a]
  }

  function Commit(db: Db, tx: Tx): Db {
    db.(txs := db.txs + [tx], balances := BalancesAfter(db, tx.entries), hooks := db.hooks + [tx.key])
  }

  /** postTransaction: the state it leaves and what it answers. */
  ghost function Post(db: Db, input: PostInput, hookOk: bool): (Db, Outcome) {
    var refused := InputFault(input.tx);
    if refused.Some? then (db, Refused(refused.value))
    else
      var known := FindKey(db.txs, input.tx.key);
      if known.Some? then
        FindKeyFinds(db.txs, input.tx.key);
        (db, if SameFingerprint(db.txs[known.value], input.tx) then Replayed(known.value) else Refused(KeyConflict))
      else
        var fault := CommitFault(db, input, hookOk);
        if fault.Some? then (db, Refused(fault.value)) else (Commit(db, input.tx), Posted(|db.txs|))
  }

  lemma {:induction false} FindKeyFinds(txs: seq<Tx>, key: string)
    ensures FindKey(txs, key).Some? ==>
              FindKey(txs, key).value < |txs| && txs[FindKey(txs, key).value].key == key
    ensures FindKey(txs, key).None? ==> forall i :: 0 <= i < |txs| ==> txs[i].key != key
  {
    if txs != [] && txs[|txs| - 1].key != key {
      FindKeyFinds(txs[..|txs| - 1], key);
      assert forall i :: 0 <= i < |txs| - 1 ==> txs[i] == txs[..|txs| - 1][i];
    }
  }

  // ------------------------------------------------------------ reversals

  function Flip(e: Entry): Entry {
    e.(side := e.side.Flip())
  }

  function Mirror(entries: seq<Entry>): (m: seq<Entry>)
    ensures |m| == |entries| && forall i :: 0 <= i < |m| ==> m[i] == Flip(entries[i])
  {
    if entries == [] then [] else Mirror(entries[..|entries| - 1]) + [Flip(entries[|entries| - 1])]
  }

  predicate ProtectedName(name: string) {
    CodeOfName(name).Some? && CodeOfName(name).value.Protected()
  }

  /** The protected accounts that the entries move against their normal side. */
  function Decreasing(accounts: seq<Account>, entries: seq<Entry>): set<AccountId> {
    set i | 0 <= i < |entries| && entries[i].account < |accounts|
            && entries[i].side != accounts[entries[i].account].normal
            && ProtectedName(accounts[entries[i].account].name) :: entries[i].account
  }

  /** The posting that reverses transaction k. */
  function Reversal(db: Db, k: nat, key: string, source: Source): PostInput
    requires k < |db.txs|
  {
    var mirror := Mirror(db.txs[k].entries);
    PostInput(Tx(key, "reversal", source, Some(k), mirror), Decreasing(db.accounts, mirror))
  }

  lemma {:induction false} MirrorNegates(entries: seq<Entry>, f: Entry -> int)
    requires forall e :: f(Flip(e)) == -f(e)
    ensures Sum(Mirror(entries), f) == -Sum(entries, f)
  {
    if entries != [] {
      var front, e := entries[..|entries| - 1], entries[|entries| - 1];
      MirrorNegates(front, f);
      SumPush(Mirror(front), Flip(e), f);
    }
  }

  /**
   * The mirror of a transaction undoes it on every account and bucket, whatever the
   * account's normal side, and balances in every currency in which it balanced.
   */
  lemma {:induction false} MirrorUndoes(entries: seq<Entry>, a: AccountId, normal: Side, bucket: Bucket, c: Currency)
    ensures Moved(Mirror(entries), a, normal, bucket) == -Moved(entries, a, normal, bucket)
    ensures Net(Mirror(entries), c) == -Net(entries, c)
  {
    MirrorNegates(entries, Moves(a, normal, bucket));
    MirrorNegates(entries, NetOf(c));
  }

  // ----------------------------------------------------------------- runs

  datatype Step =
    | Open(name: string, currency: Currency, normal: Side, row: bool)
    | Provision(name: string, currency: Currency, normal: Side)
    | Retire(account: AccountId)
    | PostStep(input: PostInput, hookOk: bool)
    | ReverseStep(tx: nat, key: string, source: Source, hookOk: bool)
    | Rebuild(account: AccountId)

  predicate Taken(accounts: seq<Account>, name: string, currency: Currency) {
    exists a :: 0 <= a < |accounts| && accounts[a].name == name && accounts[a].currency == currency
  }

  /** The account with a name and a currency: a unique index allows one. */
  function Find(accounts: seq<Account>, name: string, currency: Currency): (id: Option<AccountId>)
    ensures id.Some? ==>
              && id.value < |accounts|
              && accounts[id.value].name == name && accounts[id.value].currency == currency
    ensures id.None? ==> !Taken(accounts, name, currency)
  {
    if accounts == [] then None
    else
      var n := |accounts| - 1;
      if accounts[n].name == name && accounts[n].currency == currency then Some(n)
      else Find(accounts[..n], name, currency)
  }

  /** The balance recomputed from the entries. */
  function Recomputed(db: Db, a: AccountId, bucket: Bucket): int {
    Moved(Entries(db.txs), a, NormalOf(db.accounts, a), bucket)
  }

  function Rebuilt(db: Db, a: AccountId): Balance {
    Balance(Recomputed(db, a, Available), Recomputed(db, a, Pending), Projected(db.balances, a).version + 1)
  }

  /**
   * One committed or rolled-back call. An account may be opened with or without its
   * balance row; provisioning opens it unless it exists, and adds the row it lacks. Only a
   * reversal carries a link; what it read of the original before posting cannot change, so
   * it is taken from the current state, and its courtesy look for an earlier reversal,
   * which may be stale, is left to the unique index.
   */
  ghost function Next(db: Db, step: Step): Db
    decreases step.Provision?
  {
    match step
    case Open(name, currency, normal, row) =>
      if Taken(db.accounts, name, currency) then db
      else
        var id := |db.accounts|;
        db.(accounts := db.accounts + [Account(name, currency, normal, false)],
            balances := if row then db.balances[id := Balance(0, 0, 0)] else db.balances)
    case Provision(name, currency, normal) =>
      var known := Find(db.accounts, name, currency);
      if known.None? then Next(db, Open(name, currency, normal, true))
      else if known.value in db.balances then db
      else db.(balances := db.balances[known.value := Balance(0, 0, 0)])
    case Retire(a) =>
      if a < |db.accounts| then db.(accounts := db.accounts[a := db.accounts[a].(deleted := true)]) else db
    case PostStep(input, hookOk) =>
      if input.tx.reverses.Some? then db else Post(db, input, hookOk).0
    case ReverseStep(k, key, source, hookOk) =>
      if k >= |db.txs| || db.txs[k].reason == "reversal" then db
      else Post(db, Reversal(db, k, key, source), hookOk).0
    case Rebuild(a) =>
      if Visible(db.accounts, a) then db.(balances := db.balances[a := Rebuilt(db, a)]) else db
  }

  const EMPTY: Db := Db([], [], map[], [])

  ghost function Extend(db: Db, steps: seq<Step>): Db {
    if steps == [] then db else Next(Extend(db, steps[..|steps| - 1]), steps[|steps| - 1])
  }

  /** The state after a run of calls from an empty ledger. */
  ghost function Run(steps: seq<Step>): Db {
    Extend(EMPTY, steps)
  }

  lemma {:induction false} ExtendTwice(db: Db, steps: seq<Step>, more: seq<Step>)
    ensures Extend(db, steps + more) == Extend(Extend(db, steps), more)
  {
    if more == [] {
      assert steps + more == steps;
    } else {
      var n := |more| - 1;
      ExtendTwice(db, steps, more[..n]);
      assert (steps + more)[..|steps + more| - 1] == steps + more[..n];
    }
  }

  // ---------------------------------------------------- what every run keeps

  ghost predicate WellFormed(accounts: seq<Account>, tx: Tx) {
    && (forall i :: 0 <= i < |tx.entries| ==> Fits(accounts, tx.entries[i]))
    && forall c :: Net(tx.entries, c) == 0
  }

  ghost predicate Fits(accounts: seq<Account>, e: Entry) {
    e.amount > 0 && e.account < |accounts| && accounts[e.account].currency == e.currency
  }

  ghost predicate Consistent(db: Db) {
    forall a: AccountId, bucket :: Projected(db.balances, a).In(bucket) == Recomputed(db, a, bucket)
  }

  ghost predicate KeysDistinct(txs: seq<Tx>) {
    forall i, j :: 0 <= i < j < |txs| ==> txs[i].key != txs[j].key
  }

  /** Reversals point back at transactions that are not reversals, each at another one. */
  ghost predicate LinksSound(txs: seq<Tx>) {
    && (forall i :: 0 <= i < |txs| && txs[i].reverses.Some? ==> LinkSound(txs, i))
    && forall i, j :: 0 <= i < j < |txs| && txs[i].reverses.Some? ==> txs[i].reverses != txs[j].reverses
  }

  ghost predicate LinkSound(txs: seq<Tx>, i: nat)
    requires i < |txs| && txs[i].reverses.Some?
  {
    var k := txs[i].reverses.value;
    k < i && txs[i].reason == "reversal" && txs[k].reason != "reversal" && txs[k].reverses.None?
    && txs[i].entries == Mirror(txs[k].entries)
  }

  ghost predicate HooksMatch(db: Db) {
    |db.hooks| == |db.txs| && forall i :: 0 <= i < |db.txs| ==> db.hooks[i] == db.txs[i].key
  }

  ghost predicate Sound(db: Db) {
    && (forall i :: 0 <= i < |db.txs| ==> WellFormed(db.accounts, db.txs[i]))
    && Consistent(db)
    && KeysDistinct(db.txs)
    && LinksSound(db.txs)
    && HooksMatch(db)
    && (forall a :: a in db.balances ==> a < |db.accounts|)
  }

  lemma {:induction false} EntriesPush(txs: seq<Tx>, tx: Tx)
    ensures Entries(txs + [tx]) == Entries(txs) + tx.entries
  {
    assert (txs + [tx])[..|txs|] == txs;
  }

  /** A committed posting moves the projection and the recomputed balance alike. */
  lemma {:induction false} CommitConsistent(db: Db, tx: Tx, a: AccountId, bucket: Bucket)
    requires Projected(db.balances, a).In(bucket) == Recomputed(db, a, bucket)
    ensures Projected(Commit(db, tx).balances, a).In(bucket) == Recomputed(Commit(db, tx), a, bucket)
  {
    var normal := NormalOf(db.accounts, a);
    EntriesPush(db.txs, tx);
    SumConcat(Entries(db.txs), tx.entries, Moves(a, normal, bucket));
    AccountIdsAscend(tx.entries);
    if a !in AccountIds(tx.entries) {
      UntouchedStays(tx.entries, a, normal, bucket);
    }
  }

  lemma {:induction false} NoMismatch(accounts: seq<Account>, entries: seq<Entry>)
    requires forall i :: 0 <= i < |entries| ==> entries[i].account < |accounts|
    requires FirstMismatch(accounts, entries).None?
    ensures forall i :: 0 <= i < |entries| ==> accounts[entries[i].account].currency == entries[i].currency
  {
    if entries != [] {
      NoMismatch(accounts, entries[1..]);
      assert forall i :: 1 <= i < |entries| ==> entries[i] == entries[1..][i - 1];
    }
  }

  /** What the guards of a posting that committed have established. */
  lemma {:induction false} CommittedIsWellFormed(db: Db, input: PostInput, hookOk: bool)
    requires InputFault(input.tx).None? && CommitFault(db, input, hookOk).None?
    ensures WellFormed(db.accounts, input.tx)
    ensures forall a :: a in AccountIds(input.tx.entries) ==> a < |db.accounts|
  {
    var entries := input.tx.entries;
    AllVisible(db.accounts, entries);
    NoneMissing(db.accounts, AccountIds(entries));
    NoMismatch(db.accounts, entries);
    forall c ensures Net(entries, c) == 0 {
      assert c !in Nets(entries);
    }
  }

  lemma {:induction false} CommitKeepsRows(db: Db, tx: Tx)
    requires forall i :: 0 <= i < |db.txs| ==> WellFormed(db.accounts, db.txs[i])
    requires WellFormed(db.accounts, tx) && KeysDistinct(db.txs) && HooksMatch(db)
    requires FindKey(db.txs, tx.key).None?
    ensures var after := Commit(db, tx);
            && (forall i :: 0 <= i < |after.txs| ==> WellFormed(after.accounts, after.txs[i]))
            && KeysDistinct(after.txs) && HooksMatch(after)
  {
    FindKeyFinds(db.txs, tx.key);
  }

  lemma {:induction false} CommitKeepsLinks(txs: seq<Tx>, tx: Tx)
    requires LinksSound(txs) && !LinkTaken(txs, tx.reverses)
    requires tx.reverses.Some? ==> LinkSound(txs + [tx], |txs|)
    ensures LinksSound(txs + [tx])
  {
    var after := txs + [tx];
    forall i | 0 <= i < |after| && after[i].reverses.Some? ensures LinkSound(after, i) {
      if i < |txs| {
        assert LinkSound(txs, i);
      }
    }
  }

  lemma {:induction false} PostKeepsSound(db: Db, input: PostInput, hookOk: bool)
    requires Sound(db)
    requires input.tx.reverses.Some? ==> LinkSound(db.txs + [input.tx], |db.txs|)
    ensures Sound(Post(db, input, hookOk).0)
  {
    if Post(db, input, hookOk).1.Posted? {
      CommittedIsWellFormed(db, input, hookOk);
      CommitKeepsRows(db, input.tx);
      CommitKeepsLinks(db.txs, input.tx);
      var after := Commit(db, input.tx);
      forall a: AccountId, bucket
        ensures Projected(after.balances, a).In(bucket) == Recomputed(after, a, bucket)
      {
        CommitConsistent(db, input.tx, a, bucket);
      }
    }
  }

  lemma {:induction false} EntriesResolve(accounts: seq<Account>, txs: seq<Tx>)
    requires forall i :: 0 <= i < |txs| ==> WellFormed(accounts, txs[i])
    ensures forall i :: 0 <= i < |Entries(txs)| ==> Fits(accounts, Entries(txs)[i])
  {
    if txs != [] {
      var n := |txs| - 1;
      assert forall i :: 0 <= i < n ==> txs[..n][i] == txs[i];
      EntriesResolve(accounts, txs[..n]);
      assert WellFormed(accounts, txs[n]);
    }
  }

  lemma {:induction false} OpenKeepsSound(db: Db, step: Step)
    requires Sound(db) && step.Open?
    ensures Sound(Next(db, step))
  {
    var after := Next(db, step);
    if after != db {
      var id := |db.accounts|;
      forall i | 0 <= i < |db.txs| ensures WellFormed(after.accounts, db.txs[i]) {
        assert WellFormed(db.accounts, db.txs[i]);
        forall k | 0 <= k < |db.txs[i].entries| ensures Fits(after.accounts, db.txs[i].entries[k]) {
          assert Fits(db.accounts, db.txs[i].entries[k]);
        }
      }
      EntriesResolve(db.accounts, db.txs);
      forall a: AccountId, bucket
        ensures Projected(after.balances, a).In(bucket) == Recomputed(after, a, bucket)
      {
        assert Projected(db.balances, a).In(bucket) == Recomputed(db, a, bucket);
        if a == id {
          assert !Touches(Entries(db.txs), id);
          UntouchedStays(Entries(db.txs), id, step.normal, bucket);
        }
      }
    }
  }

  lemma {:induction false} RetireKeepsSound(db: Db, a: AccountId)
    requires Sound(db)
    ensures Sound(Next(db, Retire(a)))
  {
    var after := Next(db, Retire(a));
    forall i | 0 <= i < |db.txs| ensures WellFormed(after.accounts, db.txs[i]) {
      assert WellFormed(db.accounts, db.txs[i]);
      forall k | 0 <= k < |db.txs[i].entries| ensures Fits(after.accounts, db.txs[i].entries[k]) {
        assert Fits(db.accounts, db.txs[i].entries[k]);
      }
    }
    forall x: AccountId, bucket
      ensures Projected(after.balances, x).In(bucket) == Recomputed(after, x, bucket)
    {
      assert Projected(db.balances, x).In(bucket) == Recomputed(db, x, bucket);
      assert NormalOf(after.accounts, x) == NormalOf(db.accounts, x);
    }
  }

  lemma {:induction false} NextKeepsSound(db: Db, step: Step)
    requires Sound(db)
    ensures Sound(Next(db, step))
  {
    match step
    case Open(_, _, _, _) => OpenKeepsSound(db, step);
    case Provision(name, currency, normal) =>
      if Find(db.accounts, name, currency).None? {
        OpenKeepsSound(db, Open(name, currency, normal, true));
      } else {
        RowKeepsSound(db, step);
      }
    case Retire(a) => RetireKeepsSound(db, a);
    case PostStep(input, hookOk) =>
      if input.tx.reverses.None? {
        PostKeepsSound(db, input, hookOk);
      }
    case ReverseStep(k, key, source, hookOk) =>
      if k < |db.txs| && db.txs[k].reason != "reversal" {
        NotAReversal(db.txs, k);
        PostKeepsSound(db, Reversal(db, k, key, source), hookOk);
      }
    case Rebuild(a) => RebuildKeepsSound(db, a);
  }

  lemma {:induction false} RowKeepsSound(db: Db, step: Step)
    requires Sound(db) && step.Provision? && Find(db.accounts, step.name, step.currency).Some?
    ensures Sound(Next(db, step))
  {
    var after := Next(db, step);
    forall x: AccountId, bucket
      ensures Projected(after.balances, x).In(bucket) == Recomputed(after, x, bucket)
    {
      assert Projected(db.balances, x).In(bucket) == Recomputed(db, x, bucket);
      assert Recomputed(after, x, bucket) == Recomputed(db, x, bucket);
    }
  }

  lemma {:induction false} NotAReversal(txs: seq<Tx>, k: nat)
    requires LinksSound(txs) && k < |txs| && txs[k].reason != "reversal"
    ensures txs[k].reverses.None?
  {
  }

  lemma {:induction false} RebuildKeepsSound(db: Db, a: AccountId)
    requires Sound(db)
    ensures Sound(Next(db, Rebuild(a)))
  {
    var after := Next(db, Rebuild(a));
    forall x: AccountId, bucket
      ensures Projected(after.balances, x).In(bucket) == Recomputed(after, x, bucket)
    {
      assert Projected(db.balances, x).In(bucket) == Recomputed(db, x, bucket);
      assert Recomputed(after, x, bucket) == Recomputed(db, x, bucket);
    }
  }

  /**
   * On every run: the projection of every account and bucket is the signed sum of its
   * entries; every transaction balances; a key has one transaction and one committed
   * hook; each transaction is reversed at most once and no reversal ever is.
   */
  lemma {:induction false} RunsAreSound(steps: seq<Step>)
    ensures Sound(Run(steps))
  {
    if steps == [] {
      assert Entries([]) == [];
      assert forall a: AccountId, bucket :: Recomputed(EMPTY, a, bucket) == 0;
    } else {
      RunsAreSound(steps[..|steps| - 1]);
      NextKeepsSound(Run(steps[..|steps| - 1]), steps[|steps| - 1]);
    }
  }

  /** A run after which a transaction is in the ledger keeps it there, unchanged, for ever. */
  lemma {:induction false} HistoryIsKept(steps: seq<Step>, more: seq<Step>)
    ensures Run(steps).txs <= Run(steps + more).txs
    ensures Run(steps).hooks <= Run(steps + more).hooks
  {
    if more == [] {
      assert steps + more == steps;
    } else {
      var n := |more| - 1;
      HistoryIsKept(steps, more[..n]);
      assert (steps + more)[..|steps + more| - 1] == steps + more[..n];
      NextKeepsHistory(Run(steps + more[..n]), more[n]);
    }
  }

  lemma {:induction false} NextKeepsHistory(db: Db, step: Step)
    ensures db.txs <= Next(db, step).txs && db.hooks <= Next(db, step).hooks
  {
  }

  // --------------------------------------------------------- idempotency

  /**
   * Repeating a key never changes the ledger: the answer is the original transaction
   * exactly when reason, source, reversal link and the multiset of entries agree, and
   * a conflict otherwise.
   */
  lemma {:induction false} RepeatReplaysOrConflicts(steps: seq<Step>, i: nat, input: PostInput, hookOk: bool)
    requires i < |Run(steps).txs| && Run(steps).txs[i].key == input.tx.key && InputFault(input.tx).None?
    ensures Post(Run(steps), input, hookOk) ==
            (Run(steps), if SameFingerprint(Run(steps).txs[i], input.tx) then Replayed(i) else Refused(KeyConflict))
  {
    RunsAreSound(steps);
    FindKeyFinds(Run(steps).txs, input.tx.key);
  }

  /** A call that is refused or replayed has changed nothing. */
  lemma {:induction false} OnlyPostedChanges(db: Db, input: PostInput, hookOk: bool)
    ensures var (after, outcome) := Post(db, input, hookOk);
            if outcome.Posted? then after.txs == db.txs + [input.tx] && after.hooks == db.hooks + [input.tx.key]
            else after == db
  {
  }

  // -------------------------------------------------------- trial balance

  function Range(n: nat): (ids: seq<int>)
    ensures |ids| == n && forall i :: 0 <= i < n ==> ids[i] == i
  {
    if n == 0 then [] else Range(n - 1) + [n - 1]
  }

  /** The balance of the accounts of a currency with the given normal side, both buckets. */
  function Balances(db: Db, c: Currency, normal: Side): int -> int {
    (a: int) =>
      if 0 <= a < |db.accounts| && db.accounts[a].currency == c && db.accounts[a].normal == normal
      then Projected(db.balances, a).available + Projected(db.balances, a).pending
      else 0
  }

  function SideTotal(db: Db, c: Currency, normal: Side): int {
    Sum(Range(|db.accounts|), Balances(db, c, normal))
  }

  /** Debits less credits of the entries on account a, if it is in currency c. */
  function DebitOn(accounts: seq<Account>, entries: seq<Entry>, c: Currency): int -> int {
    (a: int) =>
      if 0 <= a < |accounts| && accounts[a].currency == c
      then Moved(entries, a, Debit, Available) + Moved(entries, a, Debit, Pending)
      else 0
  }

  function Only(k: nat, v: int): int -> int {
    (a: int) => if a == k then v else 0
  }

  lemma {:induction false} SumOnly(n: nat, k: nat, v: int)
    ensures Sum(Range(n), Only(k, v)) == if k < n then v else 0
  {
    if n > 0 {
      SumOnly(n - 1, k, v);
      SumPush(Range(n - 1), n - 1, Only(k, v));
    }
  }

  lemma {:induction false} DebitsByAccount(accounts: seq<Account>, entries: seq<Entry>, c: Currency)
    requires forall i :: 0 <= i < |entries| ==> Fits(accounts, entries[i])
    ensures Sum(Range(|accounts|), DebitOn(accounts, entries, c)) == Net(entries, c)
  {
    var ids := Range(|accounts|);
    if entries == [] {
      SumSame(ids, DebitOn(accounts, entries, c), _ => 0);
      SumZero(ids);
    } else {
      var front, e := entries[..|entries| - 1], entries[|entries| - 1];
      assert forall i :: 0 <= i < |front| ==> front[i] == entries[i];
      assert Fits(accounts, e);
      DebitsByAccount(accounts, front, c);
      assert entries == front + [e];
      DebitsOfLast(accounts, front, e, c);
      SumPush(front, e, NetOf(c));
    }
  }

  lemma {:induction false} DebitsOfLast(accounts: seq<Account>, front: seq<Entry>, e: Entry, c: Currency)
    requires Fits(accounts, e)
    ensures Sum(Range(|accounts|), DebitOn(accounts, front + [e], c))
         == Sum(Range(|accounts|), DebitOn(accounts, front, c)) + NetOf(c)(e)
  {
    var ids, v := Range(|accounts|), NetOf(c)(e);
    forall i | 0 <= i < |ids|
      ensures DebitOn(accounts, front + [e], c)(ids[i])
           == DebitOn(accounts, front, c)(ids[i]) + Only(e.account, v)(ids[i])
    {
      DebitOfLast(accounts, front, e, c, i);
    }
    SumAdd(ids, DebitOn(accounts, front + [e], c), DebitOn(accounts, front, c), Only(e.account, v));
    SumOnly(|accounts|, e.account, v);
  }

  lemma {:induction false} DebitOfLast(accounts: seq<Account>, front: seq<Entry>, e: Entry, c: Currency, a: AccountId)
    requires Fits(accounts, e)
    ensures DebitOn(accounts, front + [e], c)(a)
         == DebitOn(accounts, front, c)(a) + Only(e.account, NetOf(c)(e))(a)
  {
    SumPush(front, e, Moves(a, Debit, Available));
    SumPush(front, e, Moves(a, Debit, Pending));
    OnItsAccount(e, a);
  }

  lemma {:induction false} OnItsAccount(e: Entry, a: AccountId)
    ensures Moves(a, Debit, Available)(e) + Moves(a, Debit, Pending)(e)
         == if e.account != a then 0 else if e.side == Debit then e.amount else -e.amount
  {
  }

  lemma {:induction false} NetOfAll(accounts: seq<Account>, txs: seq<Tx>, c: Currency)
    requires forall i :: 0 <= i < |txs| ==> WellFormed(accounts, txs[i])
    ensures Net(Entries(txs), c) == 0
  {
    if txs != [] {
      var n := |txs| - 1;
      assert forall i :: 0 <= i < n ==> txs[..n][i] == txs[i];
      NetOfAll(accounts, txs[..n], c);
      SumConcat(Entries(txs[..n]), txs[n].entries, NetOf(c));
      assert WellFormed(accounts, txs[n]);
      assert Net(txs[n].entries, c) == 0;
      assert Entries(txs) == Entries(txs[..n]) + txs[n].entries;
    }
  }

  lemma {:induction false} AccountBalances(db: Db, a: AccountId, c: Currency)
    requires Consistent(db) && a < |db.accounts|
    ensures Balances(db, c, Debit)(a) == Balances(db, c, Credit)(a) + DebitOn(db.accounts, Entries(db.txs), c)(a)
  {
    var entries := Entries(db.txs);
    assert Projected(db.balances, a).In(Available) == Recomputed(db, a, Available);
    assert Projected(db.balances, a).In(Pending) == Recomputed(db, a, Pending);
    SumNegated(entries, Moves(a, Debit, Available), Moves(a, Credit, Available));
    SumNegated(entries, Moves(a, Debit, Pending), Moves(a, Credit, Pending));
  }

  /**
   * The trial balance, on every run and in every currency: the balances of the
   * debit-normal accounts sum to those of the credit-normal ones.
   */
  lemma {:induction false} TrialBalance(steps: seq<Step>, c: Currency)
    ensures SideTotal(Run(steps), c, Debit) == SideTotal(Run(steps), c, Credit)
  {
    var db := Run(steps);
    RunsAreSound(steps);
    var entries, ids := Entries(db.txs), Range(|db.accounts|);
    EntriesResolve(db.accounts, db.txs);
    DebitsByAccount(db.accounts, entries, c);
    NetOfAll(db.accounts, db.txs, c);
    forall i | 0 <= i < |ids|
      ensures Balances(db, c, Debit)(ids[i])
           == Balances(db, c, Credit)(ids[i]) + DebitOn(db.accounts, entries, c)(ids[i])
    {
      AccountBalances(db, i, c);
    }
    SumAdd(ids, Balances(db, c, Debit), Balances(db, c, Credit), DebitOn(db.accounts, entries, c));
  }

  // ------------------------------------------------- reversed transactions

  ghost predicate Reversed(txs: seq<Tx>, k: nat) {
    exists i :: 0 <= i < |txs| && txs[i].reverses == Some(k)
  }

  /** Neither a reversal nor reversed. */
  ghost predicate Active(txs: seq<Tx>, k: nat) {
    k < |txs| && txs[k].reverses.None? && !Reversed(txs, k)
  }

  ghost function ActiveMoves(txs: seq<Tx>, a: AccountId, normal: Side, bucket: Bucket): int -> int {
    (k: int) => if 0 <= k < |txs| && Active(txs, k) then Moved(txs[k].entries, a, normal, bucket) else 0
  }

  lemma {:induction false} ActiveSum(txs: seq<Tx>, a: AccountId, normal: Side, bucket: Bucket)
    requires LinksSound(txs)
    ensures Moved(Entries(txs), a, normal, bucket) == Sum(Range(|txs|), ActiveMoves(txs, a, normal, bucket))
  {
    if txs != [] {
      var n := |txs| - 1;
      var front, tx := txs[..n], txs[n];
      FrontLinks(txs);
      ActiveSum(front, a, normal, bucket);
      SumConcat(Entries(front), tx.entries, Moves(a, normal, bucket));
      SumPush(Range(n), n, ActiveMoves(txs, a, normal, bucket));
      LastNotReversed(txs);
      assert Entries(txs) == Entries(front) + tx.entries;
      if tx.reverses.None? {
        PlainAdds(txs, a, normal, bucket);
      } else {
        ReversalLeaves(txs, a, normal, bucket);
      }
    }
  }

  lemma {:induction false} PlainAdds(txs: seq<Tx>, a: AccountId, normal: Side, bucket: Bucket)
    requires txs != [] && txs[|txs| - 1].reverses.None?
    ensures var n := |txs| - 1;
            Sum(Range(n), ActiveMoves(txs, a, normal, bucket)) == Sum(Range(n), ActiveMoves(txs[..n], a, normal, bucket))
  {
    PlainKeepsActive(txs);
    SumSame(Range(|txs| - 1), ActiveMoves(txs, a, normal, bucket), ActiveMoves(txs[..|txs| - 1], a, normal, bucket));
  }

  lemma {:induction false} LastNotReversed(txs: seq<Tx>)
    requires LinksSound(txs) && txs != []
    ensures !Reversed(txs, |txs| - 1)
  {
    forall i | 0 <= i < |txs| ensures txs[i].reverses != Some(|txs| - 1) {
      if txs[i].reverses.Some? {
        assert LinkSound(txs, i);
      }
    }
  }

  lemma {:induction false} PlainKeepsActive(txs: seq<Tx>)
    requires txs != [] && txs[|txs| - 1].reverses.None?
    ensures forall k :: 0 <= k < |txs| - 1 ==> (Active(txs, k) <==> Active(txs[..|txs| - 1], k))
  {
    var n := |txs| - 1;
    var front := txs[..n];
    forall k | 0 <= k < n ensures Reversed(txs, k) <==> Reversed(front, k) {
      if Reversed(txs, k) {
        var i :| 0 <= i < |txs| && txs[i].reverses == Some(k);
        assert front[i].reverses == Some(k);
      }
      if Reversed(front, k) {
        var i :| 0 <= i < |front| && front[i].reverses == Some(k);
        assert txs[i].reverses == Some(k);
      }
    }
  }

  lemma {:induction false} FrontLinks(txs: seq<Tx>)
    requires LinksSound(txs) && txs != []
    ensures LinksSound(txs[..|txs| - 1])
  {
    var front := txs[..|txs| - 1];
    forall i | 0 <= i < |front| && front[i].reverses.Some? ensures LinkSound(front, i) {
      assert LinkSound(txs, i);
    }
  }

  /** The last transaction, a reversal, takes its original out of the active ones. */
  lemma {:induction false} ReversalLeaves(txs: seq<Tx>, a: AccountId, normal: Side, bucket: Bucket)
    requires LinksSound(txs) && txs != [] && txs[|txs| - 1].reverses.Some?
    ensures var n := |txs| - 1;
            Sum(Range(n), ActiveMoves(txs[..n], a, normal, bucket)) + Moved(txs[n].entries, a, normal, bucket)
            == Sum(Range(n), ActiveMoves(txs, a, normal, bucket))
  {
    var n := |txs| - 1;
    var front := txs[..n];
    assert LinkSound(txs, n);
    var k := txs[n].reverses.value;
    var v := Moved(txs[k].entries, a, normal, bucket);
    MirrorUndoes(txs[k].entries, a, normal, bucket, USD);
    forall x | 0 <= x < n
      ensures ActiveMoves(front, a, normal, bucket)(x) == ActiveMoves(txs, a, normal, bucket)(x) + Only(k, v)(x)
    {
      ActiveAfter(txs, x);
    }
    SumAdd(Range(n), ActiveMoves(front, a, normal, bucket), ActiveMoves(txs, a, normal, bucket), Only(k, v));
    SumOnly(n, k, v);
  }

  lemma {:induction false} ActiveAfter(txs: seq<Tx>, x: nat)
    requires LinksSound(txs) && txs != [] && txs[|txs| - 1].reverses.Some? && x < |txs| - 1
    ensures var n := |txs| - 1;
            if txs[n].reverses == Some(x) then Active(txs[..n], x) && !Active(txs, x)
            else Active(txs[..n], x) == Active(txs, x)
  {
    var n := |txs| - 1;
    var front := txs[..n];
    assert LinkSound(txs, n);
    if Reversed(front, x) {
      var i :| 0 <= i < |front| && front[i].reverses == Some(x);
      assert txs[i].reverses == Some(x);
    }
    if Reversed(txs, x) && txs[n].reverses != Some(x) {
      var i :| 0 <= i < |txs| && txs[i].reverses == Some(x);
      assert front[i].reverses == Some(x);
    }
  }

  /**
   * Whatever is posted in between, every balance is the sum over the transactions that
   * are neither reversals nor reversed.
   */
  lemma {:induction false} BalancesAreActive(steps: seq<Step>, a: AccountId, bucket: Bucket)
    ensures var db := Run(steps);
            Projected(db.balances, a).In(bucket)
            == Sum(Range(|db.txs|), ActiveMoves(db.txs, a, NormalOf(db.accounts, a), bucket))
  {
    RunsAreSound(steps);
    ActiveSum(Run(steps).txs, a, NormalOf(Run(steps).accounts, a), bucket);
  }

  // ---------------------------------------------------------- the guards

  /** No protected account is below zero in either bucket. */
  ghost predicate NonNegative(db: Db) {
    forall a: AccountId, bucket :: a < |db.accounts| && ProtectedName(db.accounts[a].name) ==>
      Projected(db.balances, a).In(bucket) >= 0
  }

  /** Every protected account that an entry decreases is guarded. */
  ghost predicate Covered(accounts: seq<Account>, input: PostInput) {
    Decreasing(accounts, input.tx.entries) <= input.guarded
  }

  lemma {:induction false} NoneShort(db: Db, entries: seq<Entry>, guarded: set<AccountId>, ids: seq<AccountId>, k: nat)
    requires FirstShort(db, entries, guarded, ids).None? && k < |ids| && ids[k] in guarded
    ensures BalanceAfter(db, entries, ids[k]).available >= 0 && BalanceAfter(db, entries, ids[k]).pending >= 0
  {
    if k > 0 {
      var rest := ids[1..];
      assert FirstShort(db, entries, guarded, rest).None?;
      assert rest[k - 1] == ids[k];
      NoneShort(db, entries, guarded, rest, k - 1);
    }
  }

  lemma {:induction false} OnlyGrows(entries: seq<Entry>, a: AccountId, normal: Side, bucket: Bucket)
    requires forall i :: 0 <= i < |entries| && entries[i].account == a ==>
               entries[i].side == normal && entries[i].amount > 0
    ensures Moved(entries, a, normal, bucket) >= 0
  {
    if entries != [] {
      var front := entries[..|entries| - 1];
      assert forall i :: 0 <= i < |front| ==> front[i] == entries[i];
      OnlyGrows(front, a, normal, bucket);
    }
  }

  /** Guards that cover what a posting decreases keep every protected account at or above zero. */
  lemma {:induction false} CoveredKeepsNonNegative(db: Db, input: PostInput, hookOk: bool)
    requires NonNegative(db) && Covered(db.accounts, input)
    ensures NonNegative(Post(db, input, hookOk).0)
  {
    if Post(db, input, hookOk).1.Posted? {
      CommittedIsWellFormed(db, input, hookOk);
      AccountIdsAscend(input.tx.entries);
      var after := Commit(db, input.tx);
      forall a: AccountId, bucket | a < |db.accounts| && ProtectedName(db.accounts[a].name)
        ensures Projected(after.balances, a).In(bucket) >= 0
      {
        assert Projected(db.balances, a).In(bucket) >= 0;
        CoveredAccount(db, input, hookOk, a, bucket);
      }
    }
  }

  lemma {:induction false} CoveredAccount(db: Db, input: PostInput, hookOk: bool, a: AccountId, bucket: Bucket)
    requires Covered(db.accounts, input) && WellFormed(db.accounts, input.tx)
    requires FindKey(db.txs, input.tx.key).None? && CommitFault(db, input, hookOk).None?
    requires a < |db.accounts| && ProtectedName(db.accounts[a].name) && Projected(db.balances, a).In(bucket) >= 0
    ensures Projected(Commit(db, input.tx).balances, a).In(bucket) >= 0
  {
    var entries := input.tx.entries;
    var ids := AccountIds(entries);
    if a in ids {
      if a in input.guarded {
        var k :| 0 <= k < |ids| && ids[k] == a;
        NoneShort(db, entries, input.guarded, ids, k);
      } else {
        forall i | 0 <= i < |entries| && entries[i].account == a
          ensures entries[i].side == db.accounts[a].normal && entries[i].amount > 0
        {
          assert Fits(db.accounts, entries[i]);
          assert a !in Decreasing(db.accounts, entries);
        }
        OnlyGrows(entries, a, db.accounts[a].normal, bucket);
      }
    }
  }

  /** The guards that a reversal computes from account names cover all that it decreases. */
  lemma {:induction false} ReversalIsCovered(db: Db, k: nat, key: string, source: Source)
    requires k < |db.txs|
    ensures Covered(db.accounts, Reversal(db, k, key, source))
  {
  }
}
