/**
 * When the ledger accepts a posting (packages/ledger/src/service.ts): the checks of a
 * request and of the tables, one after the other in the code, as one condition.
 */
module Acceptance {
  import opened Prelude
  import opened Money
  import opened Chart
  import opened Ledger

  /** What a request must be, whatever the tables hold. */
  ghost predicate ValidRequest(tx: Tx) {
    && tx.reason in LEDGER_REASONS && 8 <= |tx.key| <= 200 && tx.source.kind != "" && tx.source.id != ""
    && |tx.entries| >= 2 && (forall i :: 0 <= i < |tx.entries| ==> tx.entries[i].amount > 0)
    && forall c :: Net(tx.entries, c) == 0
  }

  lemma {:induction false} FaultFree(tx: Tx)
    requires tx.reason in LEDGER_REASONS && 8 <= |tx.key| <= 200 && tx.source.kind != "" && tx.source.id != ""
    requires |tx.entries| >= 2 && (forall i :: 0 <= i < |tx.entries| ==> tx.entries[i].amount > 0)
    requires forall c :: Net(tx.entries, c) == 0
    ensures InputFault(tx).None?
  {
    assert Nets(tx.entries) == map[];
  }

  /** A request is refused without a look at the tables exactly when it is not valid. */
  lemma {:induction false} ValidIff(tx: Tx)
    ensures InputFault(tx).None? <==> ValidRequest(tx)
  {
    if ValidRequest(tx) {
      FaultFree(tx);
    }
    if InputFault(tx).None? {
      forall c ensures Net(tx.entries, c) == 0 {
        assert c !in Nets(tx.entries);
      }
    }
  }

  lemma {:induction false} AllMatch(accounts: seq<Account>, entries: seq<Entry>)
    requires forall i :: 0 <= i < |entries| ==>
               entries[i].account < |accounts| && accounts[entries[i].account].currency == entries[i].currency
    ensures FirstMismatch(accounts, entries).None?
  {
    if entries != [] {
      AllMatch(accounts, entries[1..]);
    }
  }

  /** A guarded account that the entries would take below zero. */
  predicate Falls(db: Db, entries: seq<Entry>, guarded: set<AccountId>, a: AccountId) {
    a in guarded && (BalanceAfter(db, entries, a).available < 0 || BalanceAfter(db, entries, a).pending < 0)
  }

  lemma {:induction false} ShortIff(db: Db, entries: seq<Entry>, guarded: set<AccountId>, ids: seq<AccountId>)
    ensures FirstShort(db, entries, guarded, ids).Some? <==>
            exists k :: 0 <= k < |ids| && Falls(db, entries, guarded, ids[k])
    ensures FirstShort(db, entries, guarded, ids).Some? ==> FirstShort(db, entries, guarded, ids).value.Insufficient?
  {
    if ids != [] {
      ShortIff(db, entries, guarded, ids[1..]);
      if exists k :: 0 <= k < |ids[1..]| && Falls(db, entries, guarded, ids[1..][k]) {
        var k :| 0 <= k < |ids[1..]| && Falls(db, entries, guarded, ids[1..][k]);
        assert Falls(db, entries, guarded, ids[k + 1]);
      }
      if exists k :: 0 < k < |ids| && Falls(db, entries, guarded, ids[k]) {
        var k :| 0 < k < |ids| && Falls(db, entries, guarded, ids[k]);
        assert Falls(db, entries, guarded, ids[1..][k - 1]);
      }
    }
  }

  /** The accounts of the entries exist, are not retired, and have the currency of their entry. */
  ghost predicate Backed(accounts: seq<Account>, entries: seq<Entry>) {
    forall i :: 0 <= i < |entries| ==> BackedEntry(accounts, entries[i])
  }

  predicate BackedEntry(accounts: seq<Account>, e: Entry) {
    e.account < |accounts| && !accounts[e.account].deleted && accounts[e.account].currency == e.currency
  }

  /** No guarded account that the entries touch ends below zero in a bucket. */
  ghost predicate KeepsFloor(db: Db, entries: seq<Entry>, guarded: set<AccountId>) {
    forall i, bucket :: 0 <= i < |entries| && entries[i].account in guarded ==>
      BucketAfter(db, entries, entries[i].account, bucket) >= 0
  }

  function BucketAfter(db: Db, entries: seq<Entry>, a: AccountId, bucket: Bucket): int {
    Projected(db.balances, a).In(bucket) + Moved(entries, a, NormalOf(db.accounts, a), bucket)
  }

  lemma {:induction false} FallsBelow(db: Db, entries: seq<Entry>, guarded: set<AccountId>, a: AccountId)
    ensures Falls(db, entries, guarded, a) <==>
            a in guarded && (BucketAfter(db, entries, a, Available) < 0 || BucketAfter(db, entries, a, Pending) < 0)
  {
  }

  lemma {:induction false} FloorIff(db: Db, entries: seq<Entry>, guarded: set<AccountId>)
    ensures FirstShort(db, entries, guarded, AccountIds(entries)).None? <==> KeepsFloor(db, entries, guarded)
  {
    var ids := AccountIds(entries);
    AccountIdsAscend(entries);
    ShortIff(db, entries, guarded, ids);
    if FirstShort(db, entries, guarded, ids).Some? {
      var k :| 0 <= k < |ids| && Falls(db, entries, guarded, ids[k]);
      assert ids[k] in ids;
      var i :| 0 <= i < |entries| && entries[i].account == ids[k];
      FallsBelow(db, entries, guarded, entries[i].account);
    } else {
      forall i, bucket | 0 <= i < |entries| && entries[i].account in guarded
        ensures BucketAfter(db, entries, entries[i].account, bucket) >= 0
      {
        var k :| 0 <= k < |ids| && ids[k] == entries[i].account;
        assert !Falls(db, entries, guarded, ids[k]);
        FallsBelow(db, entries, guarded, ids[k]);
      }
    }
  }

  lemma {:induction false} BackedIff(accounts: seq<Account>, entries: seq<Entry>)
    ensures Backed(accounts, entries) <==>
            && Missing(accounts, AccountIds(entries)) == []
            && (forall i :: 0 <= i < |entries| ==> entries[i].account < |accounts|)
            && FirstMismatch(accounts, entries).None?
  {
    AccountIdsAscend(entries);
    NoneMissing(accounts, AccountIds(entries));
    if Backed(accounts, entries) {
      forall a | a in AccountIds(entries) ensures Visible(accounts, a) {
        var i :| 0 <= i < |entries| && entries[i].account == a;
        assert BackedEntry(accounts, entries[i]);
      }
      forall i | 0 <= i < |entries|
        ensures entries[i].account < |accounts| && accounts[entries[i].account].currency == entries[i].currency
      {
        assert BackedEntry(accounts, entries[i]);
      }
      AllMatch(accounts, entries);
    } else if Missing(accounts, AccountIds(entries)) == [] {
      AllVisible(accounts, entries);
      if FirstMismatch(accounts, entries).None? {
        NoMismatch(accounts, entries);
      }
    }
  }

  /** The link of a reversal, if it is one, is taken by nobody. */
  ghost predicate LinkFree(txs: seq<Tx>, reverses: Option<nat>) {
    reverses.Some? ==> forall i :: 0 <= i < |txs| ==> txs[i].reverses != reverses
  }

  lemma {:induction false} LinkIsFree(txs: seq<Tx>, reverses: Option<nat>)
    ensures LinkFree(txs, reverses) <==> !LinkTaken(txs, reverses)
  {
  }

  lemma {:induction false} CommitsIff(db: Db, input: PostInput, hookOk: bool)
    ensures CommitFault(db, input, hookOk).None? <==>
            && LinkFree(db.txs, input.tx.reverses) && Backed(db.accounts, input.tx.entries)
            && KeepsFloor(db, input.tx.entries, input.guarded) && hookOk
  {
    LinkIsFree(db.txs, input.tx.reverses);
    BackedIff(db.accounts, input.tx.entries);
    FloorIff(db, input.tx.entries, input.guarded);
    if Missing(db.accounts, AccountIds(input.tx.entries)) == [] {
      AllVisible(db.accounts, input.tx.entries);
    }
  }

  /**
   * A request is posted exactly when it is valid, its key is new, what it reverses is not
   * reversed, its accounts back its entries, every guarded account stays at or above zero
   * in each bucket, and its hook succeeds.
   */
  lemma {:induction false} PostsIff(db: Db, input: PostInput, hookOk: bool)
    ensures Post(db, input, hookOk).1.Posted? <==>
            && ValidRequest(input.tx)
            && (forall i :: 0 <= i < |db.txs| ==> db.txs[i].key != input.tx.key)
            && LinkFree(db.txs, input.tx.reverses)
            && Backed(db.accounts, input.tx.entries)
            && KeepsFloor(db, input.tx.entries, input.guarded)
            && hookOk
  {
    ValidIff(input.tx);
    FindKeyFinds(db.txs, input.tx.key);
    CommitsIff(db, input, hookOk);
  }

  lemma {:induction false} MissingAre(accounts: seq<Account>, ids: seq<AccountId>)
    ensures forall a :: a in Missing(accounts, ids) <==> a in ids && !Visible(accounts, a)
  {
    if ids != [] {
      MissingAre(accounts, ids[1..]);
      assert ids == [ids[0]] + ids[1..];
    }
  }

  lemma {:induction false} MismatchIs(accounts: seq<Account>, entries: seq<Entry>)
    requires forall i :: 0 <= i < |entries| ==> entries[i].account < |accounts|
    ensures FirstMismatch(accounts, entries).Some? ==>
              exists i :: 0 <= i < |entries| && Mismatched(accounts, entries[i], FirstMismatch(accounts, entries).value)
  {
    if entries != [] {
      if Mismatched(accounts, entries[0], entries[0].account) {
      } else {
        MismatchIs(accounts, entries[1..]);
        if FirstMismatch(accounts, entries).Some? {
          var i :| 0 <= i < |entries[1..]| && Mismatched(accounts, entries[1..][i], FirstMismatch(accounts, entries).value);
          assert Mismatched(accounts, entries[i + 1], FirstMismatch(accounts, entries).value);
        }
      }
    }
  }

  predicate Mismatched(accounts: seq<Account>, e: Entry, a: AccountId) {
    e.account == a && a < |accounts| && accounts[a].currency != e.currency
  }

  lemma {:induction false} ShortIs(db: Db, entries: seq<Entry>, guarded: set<AccountId>, ids: seq<AccountId>)
    ensures FirstShort(db, entries, guarded, ids).Some? ==>
              var fault := FirstShort(db, entries, guarded, ids).value;
              && fault.Insufficient? && fault.account in ids && fault.account in guarded
              && fault.resulting == BucketAfter(db, entries, fault.account, fault.bucket) < 0
  {
    if ids != [] {
      ShortIs(db, entries, guarded, ids[1..]);
    }
  }

  /** What a refusal says is so. */
  ghost predicate IsSo(db: Db, input: PostInput, hookOk: bool, fault: Fault) {
    var tx := input.tx;
    match fault
    case UnknownReason => tx.reason !in LEDGER_REASONS
    case BadKey => !(8 <= |tx.key| <= 200)
    case NoSource => tx.source.kind == "" || tx.source.id == ""
    case TooFewEntries => |tx.entries| < 2
    case NotPositive => exists i :: 0 <= i < |tx.entries| && tx.entries[i].amount <= 0
    case Unbalanced(nets) =>
      nets != map[] && forall c :: (c in nets <==> Net(tx.entries, c) != 0) && (c in nets ==> nets[c] == Net(tx.entries, c))
    case KeyConflict => exists i :: 0 <= i < |db.txs| && db.txs[i].key == tx.key && !SameFingerprint(db.txs[i], tx)
    case AlreadyReversed => tx.reverses.Some? && exists i :: 0 <= i < |db.txs| && db.txs[i].reverses == tx.reverses
    case AccountsNotFound(missing) =>
      && missing != []
      && forall a: AccountId :: a in missing <==> Touches(tx.entries, a) && !(a < |db.accounts| && !db.accounts[a].deleted)
    case CurrencyMismatch(a) => exists i :: 0 <= i < |tx.entries| && Mismatched(db.accounts, tx.entries[i], a)
    case Insufficient(a, bucket, resulting) =>
      a in input.guarded && Touches(tx.entries, a) && resulting == BucketAfter(db, tx.entries, a, bucket) < 0
    case HookFailed => !hookOk
  }

  lemma {:induction false} InputFaultIsSo(db: Db, input: PostInput, hookOk: bool)
    ensures InputFault(input.tx).Some? ==> IsSo(db, input, hookOk, InputFault(input.tx).value)
  {
  }

  lemma {:induction false} MissingIsSo(db: Db, input: PostInput, hookOk: bool)
    ensures var missing := Missing(db.accounts, AccountIds(input.tx.entries));
            missing != [] ==> IsSo(db, input, hookOk, AccountsNotFound(missing))
  {
    var entries := input.tx.entries;
    AccountIdsAscend(entries);
    MissingAre(db.accounts, AccountIds(entries));
    forall a | Touches(entries, a) ensures a in AccountIds(entries) {
      var i :| 0 <= i < |entries| && entries[i].account == a;
    }
  }

  lemma {:induction false} ShortIsSo(db: Db, input: PostInput, hookOk: bool)
    ensures var short := FirstShort(db, input.tx.entries, input.guarded, AccountIds(input.tx.entries));
            short.Some? ==> IsSo(db, input, hookOk, short.value)
  {
    AccountIdsAscend(input.tx.entries);
    ShortIs(db, input.tx.entries, input.guarded, AccountIds(input.tx.entries));
  }

  lemma {:induction false} CommitFaultIsSo(db: Db, input: PostInput, hookOk: bool)
    ensures CommitFault(db, input, hookOk).Some? ==> IsSo(db, input, hookOk, CommitFault(db, input, hookOk).value)
  {
    MissingIsSo(db, input, hookOk);
    ShortIsSo(db, input, hookOk);
    if Missing(db.accounts, AccountIds(input.tx.entries)) == [] {
      AllVisible(db.accounts, input.tx.entries);
      MismatchIs(db.accounts, input.tx.entries);
    }
  }

  /** Every answer to a posting is true: what it refuses for is so, and what it replays has the same fingerprint. */
  lemma {:induction false} AnswersAreTrue(db: Db, input: PostInput, hookOk: bool)
    ensures match Post(db, input, hookOk).1
            case Posted(i) => i == |db.txs|
            case Replayed(i) => i < |db.txs| && db.txs[i].key == input.tx.key && SameFingerprint(db.txs[i], input.tx)
            case Refused(fault) => IsSo(db, input, hookOk, fault)
  {
    InputFaultIsSo(db, input, hookOk);
    FindKeyFinds(db.txs, input.tx.key);
    CommitFaultIsSo(db, input, hookOk);
  }

  /**
   * The reversal of a transaction is posted exactly when it is itself no reversal, nobody
   * has reversed it, its request is valid with a new key, its accounts still back it, and
   * no protected account would end below zero.
   */
  lemma {:induction false} ReversesIff(db: Db, k: nat, key: string, source: Source, hookOk: bool)
    requires k < |db.txs| && db.txs[k].reason != "reversal"
    ensures var mirror := Mirror(db.txs[k].entries);
            (Next(db, ReverseStep(k, key, source, hookOk)).txs == db.txs + [Tx(key, "reversal", source, Some(k), mirror)])
            <==>
            && ValidRequest(Tx(key, "reversal", source, Some(k), mirror))
            && (forall i :: 0 <= i < |db.txs| ==> db.txs[i].key != key && db.txs[i].reverses != Some(k))
            && Backed(db.accounts, mirror)
            && KeepsFloor(db, mirror, Decreasing(db.accounts, mirror))
            && hookOk
  {
    var input := Reversal(db, k, key, source);
    PostsIff(db, input, hookOk);
    PostedOrSame(db, input, hookOk);
  }

  lemma {:induction false} PostedOrSame(db: Db, input: PostInput, hookOk: bool)
    ensures var (after, outcome) := Post(db, input, hookOk);
            after.txs == if outcome.Posted? then db.txs + [input.tx] else db.txs
    ensures db.txs != db.txs + [input.tx]
  {
    assert |db.txs + [input.tx]| == |db.txs| + 1;
  }

  /** A retry of one's own reversal is answered with it, unless its source differs, and changes nothing. */
  lemma {:induction false} OwnReversalIsKnown(db: Db, i: nat, k: nat, source: Source, hookOk: bool)
    requires Sound(db) && i < |db.txs| && db.txs[i].reverses == Some(k)
    requires k < |db.txs| && ValidRequest(Reversal(db, k, db.txs[i].key, source).tx)
    ensures db.txs[k].reason != "reversal"
    ensures Post(db, Reversal(db, k, db.txs[i].key, source), hookOk)
         == (db, if db.txs[i].source == source then Replayed(i) else Refused(KeyConflict))
  {
    assert LinkSound(db.txs, i);
    var input := Reversal(db, k, db.txs[i].key, source);
    ValidIff(input.tx);
    FindKeyFinds(db.txs, db.txs[i].key);
  }
}
