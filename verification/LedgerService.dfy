/**
 * LedgerService (packages/ledger/src/service.ts) over the tables of one tenant. Each
 * method is one transaction on the database; a failure restores what it has touched.
 */
module Service {
  import opened Prelude
  import opened Money
  import opened Chart
  import opened Ledger
  import opened Acceptance
  import opened EntrySignature
  import DecimalText

  /** What the database can raise in the middle of an attempt. */
  datatype EngineFault = OptimisticLock | Serialization | Deadlock | LockTimeout | OtherFault {
    predicate Retryable() {
      !OtherFault?
    }
  }

  datatype Answer = Answered(outcome: Outcome) | RetriesExhausted(attempts: nat) | Raised(fault: EngineFault)

  function FaultAt(faults: seq<Option<EngineFault>>, attempt: nat): Option<EngineFault> {
    if attempt < |faults| then faults[attempt] else None
  }

  predicate Retries(faults: seq<Option<EngineFault>>, attempt: nat) {
    FaultAt(faults, attempt).Some? && FaultAt(faults, attempt).value.Retryable()
  }

  ghost predicate AllRetry(faults: seq<Option<EngineFault>>, attempts: nat) {
    forall k :: 0 <= k < attempts ==> Retries(faults, k)
  }

  /** After retryable faults alone, attempt k meets this. */
  ghost predicate MeetsAt(faults: seq<Option<EngineFault>>, k: nat, fault: Option<EngineFault>) {
    AllRetry(faults, k) && FaultAt(faults, k) == fault
  }

  /**
   * Which answer the faults of the database lead to: that of the first attempt without
   * fault, the first fault that is not retryable, or that every allowed attempt was in vain.
   */
  ghost predicate Attempted(faults: seq<Option<EngineFault>>, maxRetries: nat, answer: Answer) {
    match answer
    case Answered(_) => exists k: nat :: k <= maxRetries && MeetsAt(faults, k, None)
    case RetriesExhausted(attempts) => attempts == maxRetries + 1 && AllRetry(faults, attempts)
    case Raised(fault) =>
      !fault.Retryable() && exists k: nat :: k <= maxRetries && MeetsAt(faults, k, Some(fault))
  }

  /**
   * What a request that was posted with retries leaves: an invalid one is refused at once;
   * otherwise the faults decide whether there is an answer, which is then that of one
   * posting, and without an answer nothing has changed.
   */
  ghost predicate PostedWith(before: Db, after: Db, input: PostInput, hookOk: bool,
                             faults: seq<Option<EngineFault>>, maxRetries: nat, answer: Answer)
  {
    && (ValidRequest(input.tx) ==> Attempted(faults, maxRetries, answer))
    && (!ValidRequest(input.tx) ==> answer.Answered? && answer.outcome.Refused?)
    && (if answer.Answered? then (after, answer.outcome) == Post(before, input, hookOk) else after == before)
  }

  /** So a valid request is answered whenever its first attempt meets no fault. */
  lemma {:induction false} FaultlessIsAnswered(faults: seq<Option<EngineFault>>, maxRetries: nat, answer: Answer)
    requires Attempted(faults, maxRetries, answer) && FaultAt(faults, 0).None?
    ensures answer.Answered?
  {
    assert !Retries(faults, 0);
  }

  datatype ReversalError = NoteRequired | TxNotFound | CannotReverseReversal | ReversedByAnother

  datatype Verification = Verification(matches: bool, projected: Balance, recomputed: Balance)

  function Plus(d: Delta, bucket: Bucket, amount: int): Delta {
    if bucket.Available? then d.(available := d.available + amount) else d.(pending := d.pending + amount)
  }

  function DeltaOf(deltas: map<AccountId, Delta>, a: AccountId): Delta {
    if a in deltas then deltas[a] else Delta(0, 0)
  }

  function NetIn(net: map<Currency, int>, c: Currency): int {
    if c in net then net[c] else 0
  }

  /** Refuses malformed requests before any transaction begins. */
  method ValidateInput(tx: Tx) returns (fault: Option<Fault>)
    ensures fault == InputFault(tx)
    ensures fault.None? <==> ValidRequest(tx)
  {
    ValidIff(tx);
    if tx.reason !in LEDGER_REASONS {
      return Some(UnknownReason);
    }
    if |tx.key| < 8 || |tx.key| > 200 {
      return Some(BadKey);
    }
    if tx.source.kind == "" || tx.source.id == "" {
      return Some(NoSource);
    }
    if |tx.entries| < 2 {
      return Some(TooFewEntries);
    }
    var net: map<Currency, int> := map[];
    var i := 0;
    while i < |tx.entries|
      invariant 0 <= i <= |tx.entries|
      invariant forall k :: 0 <= k < i ==> tx.entries[k].amount > 0
      invariant forall c :: NetIn(net, c) == Net(tx.entries[..i], c)
    {
      var e := tx.entries[i];
      if e.amount <= 0 {
        return Some(NotPositive);
      }
      var sign := if e.side == Debit then e.amount else -e.amount;
      net := net[e.currency := NetIn(net, e.currency) + sign];
      assert tx.entries[..i + 1] == tx.entries[..i] + [e];
      forall c ensures Net(tx.entries[..i + 1], c) == Net(tx.entries[..i], c) + NetOf(c)(e) {
        SumPush(tx.entries[..i], e, NetOf(c));
      }
      i := i + 1;
    }
    assert tx.entries[..i] == tx.entries;
    var unbalanced := map c | c in net && net[c] != 0 :: net[c];
    assert forall c :: c in unbalanced <==> Net(tx.entries, c) != 0;
    assert unbalanced == Nets(tx.entries);
    if unbalanced != map[] {
      return Some(Unbalanced(unbalanced));
    }
    return None;
  }

  class LedgerService {
    const maxRetries: nat
    var accounts: seq<Account>
    var txs: seq<Tx>
    var balances: map<AccountId, Balance>
    var hooks: seq<string>

    constructor (maxRetries: nat)
      ensures State() == EMPTY && this.maxRetries == maxRetries
    {
      this.maxRetries := maxRetries;
      accounts, txs, balances, hooks := [], [], map[], [];
    }

    function State(): Db
      reads this
    {
      Db(accounts, txs, balances, hooks)
    }

    method CreateAccount(name: string, currency: Currency, normal: Side) returns (id: Option<AccountId>)
      modifies this
      ensures State() == Next(old(State()), Open(name, currency, normal, true))
      ensures id.None? <==> exists a :: 0 <= a < |old(accounts)| && old(accounts)[a].name == name && old(accounts)[a].currency == currency
      ensures id.None? ==> State() == old(State())
      ensures id.Some? ==>
                && id.value == |old(accounts)| && accounts == old(accounts) + [Account(name, currency, normal, false)]
                && balances == old(balances)[id.value := Balance(0, 0, 0)]
    {
      if Taken(accounts, name, currency) {
        return None;
      }
      id := Some(|accounts|);
      balances := balances[|accounts| := Balance(0, 0, 0)];
      accounts := accounts + [Account(name, currency, normal, false)];
    }

    /** Every attempt either commits or leaves no trace, so retrying is safe. */
    method PostTransaction(input: PostInput, hookOk: bool, faults: seq<Option<EngineFault>>)
      returns (answer: Answer)
      modifies this
      ensures InputFault(input.tx).Some? ==>
                answer == Answered(Refused(InputFault(input.tx).value)) && State() == old(State())
      ensures answer.Answered? ==> (State(), answer.outcome) == Post(old(State()), input, hookOk)
      ensures !answer.Answered? ==> State() == old(State())
      ensures InputFault(input.tx).None? ==>
                (answer.RetriesExhausted? <==> forall k :: 0 <= k <= maxRetries ==> Retries(faults, k))
      ensures answer.RetriesExhausted? ==> answer.attempts == maxRetries + 1
      ensures PostedWith(old(State()), State(), input, hookOk, faults, maxRetries, answer)
    {
      var fault := ValidateInput(input.tx);
      if fault.Some? {
        return Answered(Refused(fault.value));
      }
      var attempt := 0;
      while attempt <= maxRetries
        invariant 0 <= attempt <= maxRetries + 1
        invariant AllRetry(faults, attempt)
        invariant State() == old(State())
      {
        assert MeetsAt(faults, attempt, FaultAt(faults, attempt));
        match FaultAt(faults, attempt) {
          case None =>
            var outcome := PostOnce(input, hookOk);
            assert !Retries(faults, attempt);
            return Answered(outcome);
          case Some(f) =>
            if !f.Retryable() {
              assert !Retries(faults, attempt);
              return Raised(f);
            }
        }
        attempt := attempt + 1;
      }
      return RetriesExhausted(maxRetries + 1);
    }

    /** One attempt: claims the key, locks, inserts, updates the projections, runs the hook. */
    method PostOnce(input: PostInput, hookOk: bool) returns (outcome: Outcome)
      requires InputFault(input.tx).None?
      modifies this
      ensures (State(), outcome) == Post(old(State()), input, hookOk)
    {
      var known := FindKey(txs, input.tx.key);
      FindKeyFinds(txs, input.tx.key);
      if known.Some? {
        outcome := Replay(known.value, input);
        return;
      }
      if LinkTaken(txs, input.tx.reverses) {
        return Refused(AlreadyReversed);
      }
      var ids := AccountIds(input.tx.entries);
      var missing := Missing(accounts, ids);
      if missing != [] {
        return Refused(AccountsNotFound(missing));
      }
      AllVisible(accounts, input.tx.entries);
      var mismatch, posted := InsertEntries(input.tx.entries);
      if mismatch.Some? {
        return Refused(CurrencyMismatch(mismatch.value));
      }
      var savedBalances := balances;
      var short := ApplyProjectionDeltas(input, ids);
      if short.Some? {
        balances := savedBalances;
        return Refused(short.value);
      }
      if !hookOk {
        balances := savedBalances;
        return Refused(HookFailed);
      }
      var id := |txs|;
      txs := txs + [input.tx.(entries := posted)];
      hooks := hooks + [input.tx.key];
      return Posted(id);
    }

    /** The entries as stored, or the first account whose currency one of them does not have. */
    method InsertEntries(entries: seq<Entry>) returns (mismatch: Option<AccountId>, posted: seq<Entry>)
      requires forall i :: 0 <= i < |entries| ==> entries[i].account < |accounts|
      ensures mismatch == FirstMismatch(accounts, entries)
      ensures mismatch.None? ==> posted == entries
    {
      mismatch, posted := None, [];
      var i := 0;
      while i < |entries|
        invariant 0 <= i <= |entries| && posted == entries[..i]
        invariant FirstMismatch(accounts, entries) == FirstMismatch(accounts, entries[i..])
      {
        var e := entries[i];
        assert entries[i..][0] == e && entries[i..][1..] == entries[i + 1..];
        if accounts[e.account].currency != e.currency {
          mismatch := Some(e.account);
          return;
        }
        posted := posted + [e];
        i := i + 1;
      }
    }

    /** Answers a repeated key from the stored transaction, or refuses it as a conflict. */
    method Replay(k: nat, input: PostInput) returns (outcome: Outcome)
      requires k < |txs|
      ensures outcome == if SameFingerprint(txs[k], input.tx) then Replayed(k) else Refused(KeyConflict)
    {
      var row := txs[k];
      if row.reason != input.tx.reason || row.source != input.tx.source || row.reverses != input.tx.reverses {
        return Refused(KeyConflict);
      }
      SignatureIsMultiset(input.tx.entries, row.entries);
      if Signature(input.tx.entries) != Signature(row.entries) {
        return Refused(KeyConflict);
      }
      return Replayed(k);
    }

    /** The projection update under the account locks, with the non-negativity guard. */
    method ApplyProjectionDeltas(input: PostInput, ids: seq<AccountId>) returns (short: Option<Fault>)
      requires ids == AccountIds(input.tx.entries)
      requires forall i :: 0 <= i < |input.tx.entries| ==> input.tx.entries[i].account < |accounts|
      modifies this`balances
      ensures short == FirstShort(old(State()), input.tx.entries, input.guarded, ids)
      ensures short.None? ==> balances == BalancesAfter(old(State()), input.tx.entries)
    {
      ghost var db := State();
      var entries := input.tx.entries;
      var deltas := Accumulate(entries);
      AccountIdsAscend(entries);
      ghost var target := BalancesAfter(db, entries);
      balances := WithRows(balances, ids);
      WithRowsWorks(db, entries);
      short := None;
      var i := 0;
      while i < |ids|
        invariant 0 <= i <= |ids| && short.None?
        invariant Updated(WithRows(db.balances, ids), target, ids, i, balances)
        invariant NoneShortYet(db, entries, input.guarded, ids, i)
      {
        var a := ids[i];
        assert DeltaOf(deltas, a) == Movement(entries, db.accounts, a);
        UpdateOne(WithRows(db.balances, ids), target, ids, i, balances);
        RowOf(db, entries, i);
        var after := Shift(balances[a], DeltaOf(deltas, a));
        balances := balances[a := after];
        short := ShortOf(a, after, input.guarded);
        FirstShortStep(db, entries, input.guarded, ids, i);
        if short.Some? {
          return;
        }
        i := i + 1;
      }
      AllUpdated(WithRows(db.balances, ids), target, ids, balances);
    }

    /** The movement of each account the entries touch, by bucket. */
    method Accumulate(entries: seq<Entry>) returns (deltas: map<AccountId, Delta>)
      requires forall i :: 0 <= i < |entries| ==> entries[i].account < |accounts|
      ensures forall a :: DeltaOf(deltas, a) == Movement(entries, accounts, a)
    {
      deltas := map[];
      var i := 0;
      while i < |entries|
        invariant 0 <= i <= |entries|
        invariant forall a :: DeltaOf(deltas, a) == Movement(entries[..i], accounts, a)
      {
        var e := entries[i];
        var sign := if e.side == accounts[e.account].normal then e.amount else -e.amount;
        assert entries[..i + 1] == entries[..i] + [e];
        ghost var before := deltas;
        deltas := deltas[e.account := Plus(DeltaOf(deltas, e.account), e.bucket, sign)];
        forall a: AccountId ensures DeltaOf(deltas, a) == Movement(entries[..i + 1], accounts, a) {
          MovementOfLast(entries[..i], e, accounts, a);
          assert DeltaOf(before, a) == Movement(entries[..i], accounts, a);
        }
        i := i + 1;
      }
      assert entries[..i] == entries;
    }

    /** Compares the projection with the entries, reading both under the account's lock. */
    method VerifyProjection(a: AccountId) returns (report: Option<Verification>)
      ensures report.Some? <==> a < |accounts| && a in balances
      ensures report.Some? ==>
                && report.value.matches == (forall bucket :: balances[a].In(bucket) == Recomputed(State(), a, bucket))
                && (Sound(State()) ==> report.value.matches)
                && report.value.projected == balances[a]
                && forall bucket :: report.value.recomputed.In(bucket) == Recomputed(State(), a, bucket)
    {
      if a >= |accounts| || a !in balances {
        return None;
      }
      var p := balances[a];
      var available, pending := Recomputed(State(), a, Available), Recomputed(State(), a, Pending);
      var matches := p.available == available && p.pending == pending;
      assert p.available == p.In(Available) && p.pending == p.In(Pending);
      assert Projected(balances, a) == p;
      return Some(Verification(matches, p, Balance(available, pending, p.version)));
    }

    /** Rewrites the projection from the entries; from a sound state there is no drift. */
    method RebuildProjection(a: AccountId) returns (drifted: Option<bool>)
      modifies this`balances
      ensures State() == Next(old(State()), Rebuild(a))
      ensures drifted.Some? <==> Visible(accounts, a)
      ensures drifted.Some? ==>
                drifted.value == !(forall bucket ::
                  Projected(old(balances), a).In(bucket) == Recomputed(old(State()), a, bucket))
      ensures drifted.Some? ==>
                && a in balances && balances[a].version == Projected(old(balances), a).version + 1
                && forall bucket :: balances[a].In(bucket) == Recomputed(old(State()), a, bucket)
      ensures Sound(old(State())) ==> drifted != Some(true)
    {
      if !Visible(accounts, a) {
        return None;
      }
      var available, pending := Recomputed(State(), a, Available), Recomputed(State(), a, Pending);
      var before := Projected(balances, a);
      assert before.available == before.In(Available) && before.pending == before.In(Pending);
      drifted := Some(before.available != available || before.pending != pending);
      balances := balances[a := Balance(available, pending, before.version + 1)];
      assert balances[a].available == balances[a].In(Available) && balances[a].pending == balances[a].In(Pending);
    }

    /** Posts the mirror of transaction k, guarded by what its account names say is protected. */
    method ReverseTransaction(k: nat, key: string, source: Source, note: string, hookOk: bool)
      returns (result: Result<Outcome, ReversalError>)
      modifies this
      ensures result.Ok? ==>
                && k < |old(txs)| && old(txs)[k].reason != "reversal"
                && (State(), result.value) == Post(old(State()), Reversal(old(State()), k, key, source), hookOk)
                && State() == Next(old(State()), ReverseStep(k, key, source, hookOk))
      ensures result.Err? ==> State() == old(State())
      ensures result == Err(NoteRequired) <==> DecimalText.Trim(note) == ""
      ensures result == Err(TxNotFound) <==> DecimalText.Trim(note) != "" && k >= |old(txs)|
      ensures result == Err(CannotReverseReversal) <==>
                DecimalText.Trim(note) != "" && k < |old(txs)| && old(txs)[k].reason == "reversal"
      ensures result == Err(ReversedByAnother) ==> ReversedUnder(old(txs), k, key, false)
      ensures Sound(old(State())) ==>
                (result == Err(ReversedByAnother) <==>
                   && DecimalText.Trim(note) != "" && k < |old(txs)| && old(txs)[k].reason != "reversal"
                   && ReversedUnder(old(txs), k, key, false))
      ensures Sound(old(State())) && DecimalText.Trim(note) != "" && k < |old(txs)| ==>
                OwnReplayed(old(State()), k, key, source, result)
    {
      if Sound(State()) && k < |txs| {
        OneReversal(State(), k, key);
        OwnIsReplayed(State(), k, key, source, hookOk);
      }
      if DecimalText.Trim(note) == "" {
        return Err(NoteRequired);
      }
      if k >= |txs| {
        return Err(TxNotFound);
      }
      var original := txs[k];
      if original.reason == "reversal" {
        return Err(CannotReverseReversal);
      }
      var already := FindReversal(txs, k);
      if already.Some? && txs[already.value].key != key {
        return Err(ReversedByAnother);
      }
      var outcome := PostMirror(k, key, source, hookOk);
      return Ok(outcome);
    }

    method PostMirror(k: nat, key: string, source: Source, hookOk: bool) returns (outcome: Outcome)
      requires k < |txs|
      modifies this
      ensures (State(), outcome) == Post(old(State()), Reversal(old(State()), k, key, source), hookOk)
    {
      var mirrored, guarded := MirrorOf(txs[k].entries);
      var input := PostInput(Tx(key, "reversal", source, Some(k), mirrored), guarded);
      var fault := ValidateInput(input.tx);
      if fault.Some? {
        return Refused(fault.value);
      }
      outcome := PostOnce(input, hookOk);
    }

    /** The mirrored entries, and the protected accounts that they decrease. */
    method MirrorOf(entries: seq<Entry>) returns (mirrored: seq<Entry>, guarded: set<AccountId>)
      ensures mirrored == Mirror(entries)
      ensures guarded == Decreasing(accounts, Mirror(entries))
    {
      mirrored, guarded := [], {};
      var i := 0;
      while i < |entries|
        invariant 0 <= i <= |entries|
        invariant |mirrored| == i && forall k :: 0 <= k < i ==> mirrored[k] == Flip(entries[k])
        invariant guarded == Decreasing(accounts, mirrored)
      {
        var e := entries[i];
        var flipped := Flip(e);
        if e.account < |accounts| {
          var code := CodeOfName(accounts[e.account].name);
          var isProtected := code.Some? && code.value.Protected();
          if flipped.side != accounts[e.account].normal && isProtected {
            guarded := guarded + {e.account};
          }
        }
        DecreasingPush(accounts, mirrored, flipped);
        mirrored := mirrored + [flipped];
        i := i + 1;
      }
      assert mirrored == Mirror(entries);
    }
  }

  lemma {:induction false} MovementOfLast(front: seq<Entry>, e: Entry, accounts: seq<Account>, a: AccountId)
    requires e.account < |accounts|
    ensures var sign := if e.side == accounts[e.account].normal then e.amount else -e.amount;
            Movement(front + [e], accounts, a) ==
            if a == e.account then Plus(Movement(front, accounts, a), e.bucket, sign)
            else Movement(front, accounts, a)
  {
    SumPush(front, e, Moves(a, NormalOf(accounts, a), Available));
    SumPush(front, e, Moves(a, NormalOf(accounts, a), Pending));
  }

  /** INSERT … ON CONFLICT DO NOTHING of a zero row for each id. */
  function WithRows(balances: map<AccountId, Balance>, ids: seq<AccountId>): map<AccountId, Balance> {
    (map a | a in ids :: Balance(0, 0, 0)) + balances
  }

  lemma {:induction false} WithRowsWorks(db: Db, entries: seq<Entry>)
    ensures var ids := AccountIds(entries);
            Updated(WithRows(db.balances, ids), BalancesAfter(db, entries), ids, 0, WithRows(db.balances, ids))
  {
    var ids := AccountIds(entries);
    assert WithRows(db.balances, ids).Keys == BalancesAfter(db, entries).Keys;
  }

  lemma {:induction false} RowOf(db: Db, entries: seq<Entry>, i: nat)
    requires i < |AccountIds(entries)|
    ensures var ids := AccountIds(entries);
            && WithRows(db.balances, ids)[ids[i]] == Projected(db.balances, ids[i])
            && BalancesAfter(db, entries)[ids[i]] == BalanceAfter(db, entries, ids[i])
  {
  }

  /** The guard on one updated row. */
  function ShortOf(a: AccountId, after: Balance, guarded: set<AccountId>): Option<Fault> {
    if a in guarded && after.available < 0 then Some(Insufficient(a, Available, after.available))
    else if a in guarded && after.pending < 0 then Some(Insufficient(a, Pending, after.pending))
    else None
  }

  /** The first i rows hold their target, the others stand as they were. */
  ghost predicate Updated(
    rows: map<AccountId, Balance>, target: map<AccountId, Balance>, ids: seq<AccountId>, i: nat,
    balances: map<AccountId, Balance>)
  {
    && rows.Keys == target.Keys == balances.Keys
    && (forall k :: 0 <= k < |ids| ==> ids[k] in rows)
    && (forall k :: 0 <= k < |ids| ==> balances[ids[k]] == (if k < i then target else rows)[ids[k]])
    && forall a :: a in rows && a !in ids ==> balances[a] == rows[a] == target[a]
  }

  lemma {:induction false} UpdateOne(
    rows: map<AccountId, Balance>, target: map<AccountId, Balance>, ids: seq<AccountId>, i: nat,
    balances: map<AccountId, Balance>)
    requires i < |ids| && Ascending(ids) && Updated(rows, target, ids, i, balances)
    ensures ids[i] in rows && balances[ids[i]] == rows[ids[i]]
    ensures Updated(rows, target, ids, i + 1, balances[ids[i] := target[ids[i]]])
  {
    assert forall k :: 0 <= k < |ids| && k != i ==> ids[k] != ids[i];
  }

  lemma {:induction false} AllUpdated(
    rows: map<AccountId, Balance>, target: map<AccountId, Balance>, ids: seq<AccountId>,
    balances: map<AccountId, Balance>)
    requires Updated(rows, target, ids, |ids|, balances)
    ensures balances == target
  {
    forall a | a in balances ensures balances[a] == target[a] {
      if a in ids {
        var k :| 0 <= k < |ids| && ids[k] == a;
      }
    }
  }

  ghost predicate NoneShortYet(db: Db, entries: seq<Entry>, guarded: set<AccountId>, ids: seq<AccountId>, i: nat)
    requires i <= |ids|
  {
    FirstShort(db, entries, guarded, ids) == FirstShort(db, entries, guarded, ids[i..])
  }

  lemma {:induction false} FirstShortStep(db: Db, entries: seq<Entry>, guarded: set<AccountId>, ids: seq<AccountId>, i: nat)
    requires i < |ids| && NoneShortYet(db, entries, guarded, ids, i)
    ensures var short := ShortOf(ids[i], BalanceAfter(db, entries, ids[i]), guarded);
            if short.Some? then FirstShort(db, entries, guarded, ids) == short
            else NoneShortYet(db, entries, guarded, ids, i + 1)
  {
    assert ids[i..][0] == ids[i] && ids[i..][1..] == ids[i + 1..];
  }

  function FindReversal(txs: seq<Tx>, k: nat): (i: Option<nat>)
    ensures i.Some? ==> i.value < |txs| && txs[i.value].reverses == Some(k)
  {
    if txs == [] then None
    else if txs[|txs| - 1].reverses == Some(k) then Some(|txs| - 1)
    else FindReversal(txs[..|txs| - 1], k)
  }

  /** Transaction k is reversed under this key, or under another one. */
  ghost predicate ReversedUnder(txs: seq<Tx>, k: nat, key: string, own: bool) {
    exists i :: 0 <= i < |txs| && txs[i].reverses == Some(k) && (txs[i].key == key) == own
  }

  /** A reversal that is there under the same key answers the request, unless its source differs. */
  ghost predicate OwnReplayed(db: Db, k: nat, key: string, source: Source, result: Result<Outcome, ReversalError>)
    requires k < |db.txs|
  {
    ReversedUnder(db.txs, k, key, true) && ValidRequest(Reversal(db, k, key, source).tx) ==>
      exists i :: 0 <= i < |db.txs| && db.txs[i].reverses == Some(k) && db.txs[i].key == key
                  && result == Ok(if db.txs[i].source == source then Replayed(i) else Refused(KeyConflict))
  }

  lemma {:induction false} OwnIsReplayed(db: Db, k: nat, key: string, source: Source, hookOk: bool)
    requires Sound(db) && k < |db.txs|
    ensures OwnReplayed(db, k, key, source, Ok(Post(db, Reversal(db, k, key, source), hookOk).1))
    ensures ReversedUnder(db.txs, k, key, true) ==> db.txs[k].reason != "reversal" && !ReversedUnder(db.txs, k, key, false)
  {
    OneReversal(db, k, key);
    if ReversedUnder(db.txs, k, key, true) {
      var i :| 0 <= i < |db.txs| && db.txs[i].reverses == Some(k) && db.txs[i].key == key;
      assert LinkSound(db.txs, i);
      if ValidRequest(Reversal(db, k, key, source).tx) {
        OwnReversalIsKnown(db, i, k, source, hookOk);
      }
    }
  }

  lemma {:induction false} ReversalIsFound(txs: seq<Tx>, k: nat)
    ensures FindReversal(txs, k).None? ==> forall i :: 0 <= i < |txs| ==> txs[i].reverses != Some(k)
  {
    if txs != [] && txs[|txs| - 1].reverses != Some(k) {
      var front := txs[..|txs| - 1];
      ReversalIsFound(front, k);
      assert forall i :: 0 <= i < |front| ==> front[i] == txs[i];
    }
  }

  /** A transaction of a sound ledger has one reversal, and that one is not reversed. */
  lemma {:induction false} OneReversal(db: Db, k: nat, key: string)
    requires Sound(db)
    ensures var found := FindReversal(db.txs, k);
            && (ReversedUnder(db.txs, k, key, false) <==> found.Some? && db.txs[found.value].key != key)
            && (ReversedUnder(db.txs, k, key, true) <==> found.Some? && db.txs[found.value].key == key)
  {
    var found := FindReversal(db.txs, k);
    ReversalIsFound(db.txs, k);
    if found.Some? {
      forall i | 0 <= i < |db.txs| && db.txs[i].reverses == Some(k) ensures i == found.value {
      }
    }
  }

  lemma {:induction false} DecreasingPush(accounts: seq<Account>, entries: seq<Entry>, e: Entry)
    ensures Decreasing(accounts, entries + [e]) == Decreasing(accounts, entries) +
            if e.account < |accounts| && e.side != accounts[e.account].normal
               && ProtectedName(accounts[e.account].name) then {e.account} else {}
  {
    var all := entries + [e];
    forall a | a in Decreasing(accounts, entries) ensures a in Decreasing(accounts, all) {
      var i :| 0 <= i < |entries| && entries[i].account == a && a < |accounts|
               && entries[i].side != accounts[a].normal && ProtectedName(accounts[a].name);
      assert all[i].account == a;
    }
    if e.account < |accounts| && e.side != accounts[e.account].normal && ProtectedName(accounts[e.account].name) {
      assert all[|entries|].account == e.account;
    }
  }
}
