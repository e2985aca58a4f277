/**
 * The approvals of adjustments on the ledger: the calls that a run of the desk makes on
 * the catalogue of postings, and what they leave in the rows of recon.differences and
 * suspense.
 */
module AdjustmentLedger {
  import opened Prelude
  import opened Money
  import opened Chart
  import opened Ledger
  import opened Acceptance
  import opened Posting
  import opened Books
  import opened Refinement
  import opened EngineLedger
  import opened DecimalText
  import Adjustments

  function KeyOf(a: nat): string {
    "case_adj:" + Numeral(a)
  }

  /** The two accounts are the platform's, so there is no merchant. */
  function ContextFor(a: nat): Context {
    Context("", KeyOf(a), Source("case_adjustment", Numeral(a)))
  }

  /**
   * What an approval that has read its adjustment calls: the accounts are ensured, and
   * then the posting is made with a hook that fails unless it finds the row proposed.
   */
  function Approvals(d: Adjustments.Desk, step: Adjustments.Step): seq<Call> {
    if !step.PostApproval? || step.p >= |d.approvals| || d.approvals[step.p].adjustment >= |d.adjustments| then []
    else
      var a := d.approvals[step.p].adjustment;
      var row := d.adjustments[a];
      [Ensure("", row.currency, RECON_CODES)]
      + [Adjust(ContextFor(a), Money(row.amount, row.currency), row.debitDifferences, row.status.Proposed?)]
  }

  /** All the calls that a run of the desk makes, in their order. */
  function CallsFor(threshold: int, steps: seq<Adjustments.Step>): seq<Call> {
    if steps == [] then []
    else
      var front, last := steps[..|steps| - 1], steps[|steps| - 1];
      CallsFor(threshold, front) + Approvals(Adjustments.Run(threshold, front), last)
  }

  function Platform(code: Code, c: Currency): Acct {
    Acct(code, "", c)
  }

  predicate HasAccounts(accounts: seq<Account>, c: Currency) {
    AccountOf(accounts, ReconDifferences, "", c).Some? && AccountOf(accounts, Suspense, "", c).Some?
  }

  function InputFor(accounts: seq<Account>, a: nat, amount: Money, debitDifferences: bool): PostInput
    requires HasAccounts(accounts, amount.currency)
  {
    ReconInput(ContextFor(a), amount, debitDifferences,
               AccountOf(accounts, ReconDifferences, "", amount.currency).value,
               AccountOf(accounts, Suspense, "", amount.currency).value)
  }

  // ------------------------------------------- the tables agree with the desk

  ghost predicate TxIsOf(accounts: seq<Account>, tx: Tx, p: Adjustments.Posting) {
    && HasAccounts(accounts, p.currency)
    && tx == InputFor(accounts, p.adjustment, Money(p.amount, p.currency), p.debitDifferences).tx
  }

  ghost predicate TxsAgree(db: Db, postings: seq<Adjustments.Posting>) {
    |db.txs| == |postings| && forall i :: 0 <= i < |postings| ==> TxIsOf(db.accounts, db.txs[i], postings[i])
  }

  ghost predicate RowsAgree(db: Db, adjustments: seq<Adjustments.Adjustment>) {
    forall c :: RowAgrees(db, adjustments, c)
  }

  ghost predicate RowAgrees(db: Db, adjustments: seq<Adjustments.Adjustment>, c: Currency) {
    var applied := Sum(adjustments, Adjustments.AppliedIn(c));
    Stored(db, Platform(ReconDifferences, c)) == applied && Stored(db, Platform(Suspense, c)) == -applied
  }

  ghost predicate Agrees(db: Db, d: Adjustments.Desk) {
    && Charted(db.accounts) && AllLive(db.accounts) && (forall a :: a in db.balances ==> a < |db.accounts|)
    && TxsAgree(db, d.postings) && RowsAgree(db, d.adjustments)
  }

  // ------------------------------------------------- the accounts are ensured

  lemma {:induction false} GrownKeepsTxsOf(before: Db, after: Db, postings: seq<Adjustments.Posting>)
    requires TxsAgree(before, postings) && after.txs == before.txs && Grown(before.accounts, after.accounts)
    ensures TxsAgree(after, postings)
  {
    forall i | 0 <= i < |postings| ensures TxIsOf(after.accounts, after.txs[i], postings[i]) {
      assert TxIsOf(before.accounts, before.txs[i], postings[i]);
    }
  }

  lemma {:induction false} SameStoredAgree(before: Db, after: Db, adjustments: seq<Adjustments.Adjustment>)
    requires RowsAgree(before, adjustments) && forall x: Acct :: Stored(after, x) == Stored(before, x)
    ensures RowsAgree(after, adjustments)
  {
    forall c ensures RowAgrees(after, adjustments, c) {
      assert RowAgrees(before, adjustments, c);
    }
  }

  lemma {:induction false} OpenAgrees(db: Db, d: Adjustments.Desk, after: Db, account: Account)
    requires Agrees(db, d) && ChartedAccount(account) && !account.deleted
    requires Find(db.accounts, account.name, account.currency).None?
    requires after.accounts == db.accounts + [account] && after.txs == db.txs
    requires after.balances == db.balances[|db.accounts| := Balance(0, 0, 0)]
    ensures Agrees(after, d) && Grown(db.accounts, after.accounts)
  {
    OpenedGrows(db.accounts, account);
    GrownKeepsTxsOf(db, after, d.postings);
    forall x: Acct ensures Stored(after, x) == Stored(db, x) {
      OpenedStores(db, after, account, x);
    }
    SameStoredAgree(db, after, d.adjustments);
  }

  lemma {:induction false} AddRowAgrees(db: Db, d: Adjustments.Desk, after: Db, a: AccountId)
    requires Agrees(db, d) && a < |db.accounts| && after.accounts == db.accounts && after.txs == db.txs
    requires after.balances == if a in db.balances then db.balances else db.balances[a := Balance(0, 0, 0)]
    ensures Agrees(after, d) && Grown(db.accounts, after.accounts)
  {
    GrownKeepsTxsOf(db, after, d.postings);
    assert forall b: AccountId :: Projected(after.balances, b) == Projected(db.balances, b);
    SameStoredAgree(db, after, d.adjustments);
  }

  lemma {:induction false} ProvisionAgrees(db: Db, d: Adjustments.Desk, code: Code, c: Currency)
    requires Agrees(db, d)
    ensures var after := Next(db, ProvisionStep(code, "", c));
            && Agrees(after, d) && Grown(db.accounts, after.accounts)
            && AccountOf(after.accounts, code, "", c).Some?
  {
    var step := ProvisionStep(code, "", c);
    var after, known := Next(db, step), Find(db.accounts, step.name, step.currency);
    ProvisionCases(db, step);
    if known.None? {
      var account := Account(step.name, step.currency, step.normal, false);
      NameTellsCode(code, "");
      OpenAgrees(db, d, after, account);
      FindPush(db.accounts, account, step.name, step.currency);
    } else {
      AddRowAgrees(db, d, after, known.value);
    }
  }

  lemma {:induction false} EnsureAgrees(db: Db, d: Adjustments.Desk, c: Currency)
    requires Agrees(db, d)
    ensures var ready := Provisioned(db, "", c, RECON_CODES);
            Agrees(ready, d) && HasAccounts(ready.accounts, c)
  {
    var first := Provisioned(db, "", c, [ReconDifferences]);
    assert [] + [ReconDifferences] == [ReconDifferences] && RECON_CODES == [ReconDifferences] + [Suspense];
    ProvisionedPush(db, "", c, [], ReconDifferences);
    ProvisionedPush(db, "", c, [ReconDifferences], Suspense);
    assert Provisioned(db, "", c, []) == db;
    ProvisionAgrees(db, d, ReconDifferences, c);
    ProvisionAgrees(first, d, Suspense, c);
  }

  // -------------------------------------------------------- the key is known

  lemma {:induction false} KeysDiffer(a: nat, b: nat)
    requires KeyOf(a) == KeyOf(b)
    ensures a == b
  {
    assert KeyOf(a)[9..] == Numeral(a) && KeyOf(b)[9..] == Numeral(b);
    NumeralsDistinct(a, b);
  }

  lemma {:induction false} KeyIsKnown(db: Db, postings: seq<Adjustments.Posting>, a: nat)
    requires TxsAgree(db, postings)
    ensures var known := FindKey(db.txs, KeyOf(a));
            && (known.Some? <==> Adjustments.PostedFor(postings, a))
            && (known.Some? ==> known.value < |postings| && postings[known.value].adjustment == a)
  {
    FindKeyFinds(db.txs, KeyOf(a));
    forall i | 0 <= i < |postings| ensures db.txs[i].key == KeyOf(a) <==> postings[i].adjustment == a {
      assert TxIsOf(db.accounts, db.txs[i], postings[i]);
      if db.txs[i].key == KeyOf(a) {
        KeysDiffer(a, postings[i].adjustment);
      }
    }
  }

  // ------------------------------------------------------ nothing else stops it

  lemma {:induction false} InputIsValid(accounts: seq<Account>, a: nat, amount: Money, debitDifferences: bool)
    requires HasAccounts(accounts, amount.currency) && amount.amount > 0 && a < UUIDS
    ensures InputFault(InputFor(accounts, a, amount, debitDifferences).tx).None?
  {
    var tx := InputFor(accounts, a, amount, debitDifferences).tx;
    UuidIsShort(a);
    assert LEDGER_REASONS[8] == "reconciliation";
    forall c ensures Net(tx.entries, c) == 0 {
      TwoEntriesNet(tx.entries[0], tx.entries[1], c);
    }
    FaultFree(tx);
  }

  /** The accounts of an adjustment are there, and none is guarded: only the hook can refuse it. */
  lemma {:induction false} OnlyHookStops(db: Db, a: nat, amount: Money, debitDifferences: bool, hookOk: bool)
    requires HasAccounts(db.accounts, amount.currency)
    ensures CommitFault(db, InputFor(db.accounts, a, amount, debitDifferences), hookOk)
         == if hookOk then None else Some(HookFailed)
  {
    var input := InputFor(db.accounts, a, amount, debitDifferences);
    var entries := input.tx.entries;
    AccountIdsAscend(entries);
    NoneMissing(db.accounts, AccountIds(entries));
    AllMatch(db.accounts, entries);
    NothingGuarded(db, entries, AccountIds(entries));
  }

  lemma {:induction false} LedgerAnswers(db: Db, d: Adjustments.Desk, a: nat)
    requires Agrees(db, d) && Adjustments.Inv(d) && a < |d.adjustments| && a < UUIDS
    requires HasAccounts(db.accounts, d.adjustments[a].currency)
    ensures var row := d.adjustments[a];
            var input := InputFor(db.accounts, a, Money(row.amount, row.currency), row.debitDifferences);
            var (after, outcome) := Post(db, input, row.status.Proposed?);
            if Adjustments.PostedFor(d.postings, a) then outcome.Replayed? && after == db
            else if row.status.Proposed? then outcome == Outcome.Posted(|db.txs|) && after == Commit(db, input.tx)
            else outcome == Refused(HookFailed) && after == db
  {
    var row := d.adjustments[a];
    var amount := Money(row.amount, row.currency);
    assert Adjustments.RowOk(d, a);
    InputIsValid(db.accounts, a, amount, row.debitDifferences);
    OnlyHookStops(db, a, amount, row.debitDifferences, row.status.Proposed?);
    KeyIsKnown(db, d.postings, a);
    if Adjustments.PostedFor(d.postings, a) {
      var i := FindKey(db.txs, KeyOf(a)).value;
      assert TxIsOf(db.accounts, db.txs[i], d.postings[i]);
      assert Adjustments.PostingOk(d.adjustments, d.postings[i]);
    }
  }

  // -------------------------------------------------------- what a posting stores

  lemma {:induction false} AccountTells(accounts: seq<Account>, code: Code, c: Currency, other: Code, o: Currency)
    requires AccountOf(accounts, code, "", c).Some?
    requires AccountOf(accounts, code, "", c) == AccountOf(accounts, other, "", o)
    ensures code == other && c == o
  {
    NamesDistinct(code, "", other, "");
  }

  /** What an adjustment of v adds to an account of the platform. */
  function Share(code: Code, c: Currency, currency: Currency, v: int): int {
    if c != currency then 0 else if code == ReconDifferences then v else if code == Suspense then -v else 0
  }

  lemma {:induction false} AccountsAreApart(accounts: seq<Account>, c: Currency)
    requires Charted(accounts) && HasAccounts(accounts, c)
    ensures var differences := AccountOf(accounts, ReconDifferences, "", c).value;
            var suspense := AccountOf(accounts, Suspense, "", c).value;
            differences != suspense && NormalOf(accounts, differences) == Debit && NormalOf(accounts, suspense) == Debit
  {
    NormalIs(accounts, ReconDifferences, c);
    NormalIs(accounts, Suspense, c);
    CodesApart(accounts, ReconDifferences, Suspense, "", c);
  }

  lemma {:induction false} NormalIs(accounts: seq<Account>, code: Code, c: Currency)
    requires Charted(accounts) && AccountOf(accounts, code, "", c).Some?
    ensures NormalOf(accounts, AccountOf(accounts, code, "", c).value) == code.Normal()
  {
    AccountIsCharted(accounts, code, "", c);
  }

  lemma {:induction false} InputIs(accounts: seq<Account>, a: nat, amount: Money, debitDifferences: bool,
                                   differences: AccountId, suspense: AccountId)
    requires AccountOf(accounts, ReconDifferences, "", amount.currency) == Some(differences)
    requires AccountOf(accounts, Suspense, "", amount.currency) == Some(suspense)
    ensures InputFor(accounts, a, amount, debitDifferences)
         == ReconInput(ContextFor(a), amount, debitDifferences, differences, suspense)
  {
  }

  lemma {:induction false} AccountMoves(db: Db, a: nat, amount: Money, debitDifferences: bool, x: AccountId)
    requires Charted(db.accounts) && HasAccounts(db.accounts, amount.currency)
    requires Post(db, InputFor(db.accounts, a, amount, debitDifferences), true).1.Posted?
    ensures var after := Post(db, InputFor(db.accounts, a, amount, debitDifferences), true).0;
            var v := if debitDifferences then amount.amount else -amount.amount;
            Projected(after.balances, x).In(Available) - Projected(db.balances, x).In(Available) ==
            if Some(x) == AccountOf(db.accounts, ReconDifferences, "", amount.currency) then v
            else if Some(x) == AccountOf(db.accounts, Suspense, "", amount.currency) then -v
            else 0
  {
    var differences := AccountOf(db.accounts, ReconDifferences, "", amount.currency).value;
    var suspense := AccountOf(db.accounts, Suspense, "", amount.currency).value;
    AccountsAreApart(db.accounts, amount.currency);
    InputIs(db.accounts, a, amount, debitDifferences, differences, suspense);
    ReconMoves(db, ContextFor(a), amount, debitDifferences, differences, suspense, true, x, Available);
  }

  lemma {:induction false} ShareOfAccount(accounts: seq<Account>, code: Code, c: Currency, currency: Currency,
                                          x: AccountId, v: int)
    requires HasAccounts(accounts, currency) && AccountOf(accounts, code, "", c) == Some(x)
    ensures (if Some(x) == AccountOf(accounts, ReconDifferences, "", currency) then v
             else if Some(x) == AccountOf(accounts, Suspense, "", currency) then -v
             else 0) == Share(code, c, currency, v)
  {
    if Some(x) == AccountOf(accounts, ReconDifferences, "", currency) {
      AccountTells(accounts, code, c, ReconDifferences, currency);
    } else if Some(x) == AccountOf(accounts, Suspense, "", currency) {
      AccountTells(accounts, code, c, Suspense, currency);
    }
  }

  lemma {:induction false} PostKeepsAccounts(db: Db, input: PostInput, hookOk: bool)
    ensures Post(db, input, hookOk).0.accounts == db.accounts
  {
  }

  lemma {:induction false} PostingStores(db: Db, a: nat, amount: Money, debitDifferences: bool, code: Code, c: Currency)
    requires Charted(db.accounts) && HasAccounts(db.accounts, amount.currency)
    requires Post(db, InputFor(db.accounts, a, amount, debitDifferences), true).1.Posted?
    ensures var after := Post(db, InputFor(db.accounts, a, amount, debitDifferences), true).0;
            var v := if debitDifferences then amount.amount else -amount.amount;
            Stored(after, Platform(code, c)) == Stored(db, Platform(code, c)) + Share(code, c, amount.currency, v)
  {
    var after := Post(db, InputFor(db.accounts, a, amount, debitDifferences), true).0;
    var v := if debitDifferences then amount.amount else -amount.amount;
    PostKeepsAccounts(db, InputFor(db.accounts, a, amount, debitDifferences), true);
    var x := AccountOf(db.accounts, code, "", c);
    if x.Some? {
      AccountMoves(db, a, amount, debitDifferences, x.value);
      ShareOfAccount(db.accounts, code, c, amount.currency, x.value, v);
      StoredMoves(db, after, code, c, x.value);
    } else {
      assert code == ReconDifferences || code == Suspense ==> c != amount.currency;
    }
  }

  lemma {:induction false} StoredMoves(db: Db, after: Db, code: Code, c: Currency, x: AccountId)
    requires after.accounts == db.accounts && AccountOf(db.accounts, code, "", c) == Some(x)
    ensures Stored(after, Platform(code, c)) - Stored(db, Platform(code, c))
         == Projected(after.balances, x).In(Available) - Projected(db.balances, x).In(Available)
  {
  }

  lemma {:induction false} AppliedCounts(d: Adjustments.Desk, a: nat, approver: string, c: Currency)
    requires a < |d.adjustments| && d.adjustments[a].status.Proposed? && !Adjustments.PostedFor(d.postings, a)
    ensures var row := d.adjustments[a];
            var v := if row.debitDifferences then row.amount else -row.amount;
            Sum(Adjustments.Apply(d, a, approver).adjustments, Adjustments.AppliedIn(c))
            == Sum(d.adjustments, Adjustments.AppliedIn(c)) + Share(ReconDifferences, c, row.currency, v)
  {
    var t := Adjustments.Apply(d, a, approver);
    SumSet(d.adjustments, a, t.adjustments[a], Adjustments.AppliedIn(c));
  }

  lemma {:induction false} PostingKeepsRowsAgreed(db: Db, d: Adjustments.Desk, a: nat, approver: string, after: Db)
    requires Agrees(db, d) && a < |d.adjustments| && d.adjustments[a].status.Proposed?
    requires !Adjustments.PostedFor(d.postings, a) && HasAccounts(db.accounts, d.adjustments[a].currency)
    requires var row := d.adjustments[a];
             var input := InputFor(db.accounts, a, Money(row.amount, row.currency), row.debitDifferences);
             Post(db, input, true).1.Posted? && after == Post(db, input, true).0
    ensures RowsAgree(after, Adjustments.Apply(d, a, approver).adjustments)
  {
    var row := d.adjustments[a];
    forall c ensures RowAgrees(after, Adjustments.Apply(d, a, approver).adjustments, c) {
      assert RowAgrees(db, d.adjustments, c);
      PostingStores(db, a, Money(row.amount, row.currency), row.debitDifferences, ReconDifferences, c);
      PostingStores(db, a, Money(row.amount, row.currency), row.debitDifferences, Suspense, c);
      AppliedCounts(d, a, approver, c);
    }
  }

  lemma {:induction false} TxsAgreePush(db: Db, after: Db, postings: seq<Adjustments.Posting>, p: Adjustments.Posting)
    requires TxsAgree(db, postings) && HasAccounts(db.accounts, p.currency) && after.accounts == db.accounts
    requires after.txs == db.txs + [InputFor(db.accounts, p.adjustment, Money(p.amount, p.currency), p.debitDifferences).tx]
    ensures TxsAgree(after, postings + [p])
  {
    forall i | 0 <= i < |postings| + 1 ensures TxIsOf(after.accounts, after.txs[i], (postings + [p])[i]) {
      if i < |postings| {
        assert TxIsOf(db.accounts, db.txs[i], postings[i]);
      }
    }
  }

  lemma {:induction false} PostingKeepsRowsInRange(db: Db, tx: Tx)
    requires (forall a :: a in db.balances ==> a < |db.accounts|) && |tx.entries| == 2
    requires tx.entries[0].account < |db.accounts| && tx.entries[1].account < |db.accounts|
    ensures forall a :: a in Commit(db, tx).balances ==> a < |db.accounts|
  {
    AccountIdsAscend(tx.entries);
  }

  lemma {:induction false} PostingAgrees(db: Db, d: Adjustments.Desk, a: nat, approver: string)
    requires Agrees(db, d) && Adjustments.Inv(d) && a < |d.adjustments| && a < UUIDS
    requires HasAccounts(db.accounts, d.adjustments[a].currency)
    ensures var row := d.adjustments[a];
            var input := InputFor(db.accounts, a, Money(row.amount, row.currency), row.debitDifferences);
            Agrees(Post(db, input, row.status.Proposed?).0, Adjustments.Apply(d, a, approver))
  {
    LedgerAnswers(db, d, a);
    if !Adjustments.PostedFor(d.postings, a) && d.adjustments[a].status.Proposed? {
      var row := d.adjustments[a];
      var input := InputFor(db.accounts, a, Money(row.amount, row.currency), row.debitDifferences);
      PostingKeepsRowsAgreed(db, d, a, approver, Post(db, input, true).0);
      TxsAgreePush(db, Commit(db, input.tx), d.postings, Adjustments.Posting(a, row.amount, row.currency, row.debitDifferences));
      PostingKeepsRowsInRange(db, input.tx);
    }
  }

  // ------------------------------------------------------------ main results

  lemma {:induction false} AdjustPosts(db: Db, a: nat, amount: Money, debitDifferences: bool, hookOk: bool)
    requires HasAccounts(db.accounts, amount.currency) && amount.amount > 0
    ensures Extend(db, Steps(db, Adjust(ContextFor(a), amount, debitDifferences, hookOk)))
         == Post(db, InputFor(db.accounts, a, amount, debitDifferences), hookOk).0
  {
    var step := PostStep(InputFor(db.accounts, a, amount, debitDifferences), hookOk);
    assert Steps(db, Adjust(ContextFor(a), amount, debitDifferences, hookOk)) == [step];
    assert [step][..0] == [];
    assert Extend(db, [step]) == Next(db, step);
  }

  lemma {:induction false} TwoCalls(calls: seq<Call>, first: Call, second: Call)
    ensures var ready := Extend(Catalogue(calls), Steps(Catalogue(calls), first));
            Catalogue(calls + ([first] + [second])) == Extend(ready, Steps(ready, second))
  {
    CatalogueNext(calls, first);
    CatalogueNext(calls + [first], second);
    assert calls + [first] + [second] == calls + ([first] + [second]);
  }

  lemma {:induction false} ApprovalCalls(d: Adjustments.Desk, p: nat, a: nat)
    requires p < |d.approvals| && a == d.approvals[p].adjustment && a < |d.adjustments|
    ensures var row := d.adjustments[a];
            Approvals(d, Adjustments.PostApproval(p))
            == [Ensure("", row.currency, RECON_CODES)]
               + [Adjust(ContextFor(a), Money(row.amount, row.currency), row.debitDifferences, row.status.Proposed?)]
    ensures Adjustments.Next(d, Adjustments.PostApproval(p)) == Adjustments.Apply(d, a, d.approvals[p].approver)
  {
  }

  lemma {:induction false} EnsuredThenPosted(db: Db, d: Adjustments.Desk, a: nat, approver: string)
    requires Agrees(db, d) && Adjustments.Inv(d) && a < |d.adjustments| && a < UUIDS
    ensures var row := d.adjustments[a];
            var ready := Provisioned(db, "", row.currency, RECON_CODES);
            var adjust := Adjust(ContextFor(a), Money(row.amount, row.currency), row.debitDifferences, row.status.Proposed?);
            Agrees(Extend(ready, Steps(ready, adjust)), Adjustments.Apply(d, a, approver))
  {
    var row := d.adjustments[a];
    assert Adjustments.RowOk(d, a);
    EnsureAgrees(db, d, row.currency);
    var ready := Provisioned(db, "", row.currency, RECON_CODES);
    AdjustPosts(ready, a, Money(row.amount, row.currency), row.debitDifferences, row.status.Proposed?);
    PostingAgrees(ready, d, a, approver);
  }

  lemma {:induction false} ApprovalAgrees(calls: seq<Call>, d: Adjustments.Desk, p: nat)
    requires Agrees(Catalogue(calls), d) && Adjustments.Inv(d) && |d.adjustments| <= UUIDS && p < |d.approvals|
    ensures var step := Adjustments.PostApproval(p);
            Agrees(Catalogue(calls + Approvals(d, step)), Adjustments.Next(d, step))
  {
    var a := d.approvals[p].adjustment;
    assert Adjustments.ApprovalOk(d, d.approvals[p]);
    var row := d.adjustments[a];
    ApprovalCalls(d, p, a);
    TwoCalls(calls, Ensure("", row.currency, RECON_CODES),
             Adjust(ContextFor(a), Money(row.amount, row.currency), row.debitDifferences, row.status.Proposed?));
    EnsuredThenPosted(Catalogue(calls), d, a, d.approvals[p].approver);
  }

  lemma {:induction false} DeskStepApplies(d: Adjustments.Desk, step: Adjustments.Step, c: Currency)
    requires step.PostApproval? ==> step.p >= |d.approvals|
    ensures Sum(Adjustments.Next(d, step).adjustments, Adjustments.AppliedIn(c)) == Sum(d.adjustments, Adjustments.AppliedIn(c))
  {
    var t := Adjustments.Next(d, step);
    if t.adjustments != d.adjustments {
      if step.Propose? {
        SumPush(d.adjustments, t.adjustments[|d.adjustments|], Adjustments.AppliedIn(c));
      } else {
        SumSet(d.adjustments, step.a, t.adjustments[step.a], Adjustments.AppliedIn(c));
      }
    }
  }

  lemma {:induction false} DeskStepPostsNothing(d: Adjustments.Desk, step: Adjustments.Step)
    requires step.PostApproval? ==> step.p >= |d.approvals|
    ensures Adjustments.Next(d, step).postings == d.postings
  {
  }

  lemma {:induction false} DeskStepAgrees(db: Db, d: Adjustments.Desk, step: Adjustments.Step)
    requires Agrees(db, d) && (step.PostApproval? ==> step.p >= |d.approvals|)
    ensures Agrees(db, Adjustments.Next(d, step))
  {
    var t := Adjustments.Next(d, step);
    DeskStepPostsNothing(d, step);
    forall c ensures RowAgrees(db, t.adjustments, c) {
      assert RowAgrees(db, d.adjustments, c);
      DeskStepApplies(d, step, c);
    }
  }

  lemma {:induction false} EmptyAgrees(threshold: int)
    ensures Agrees(EMPTY, Adjustments.Run(threshold, []))
  {
    assert forall x: Acct :: Stored(EMPTY, x) == 0;
    forall c ensures RowAgrees(EMPTY, [], c) {
    }
  }

  lemma {:induction false} NextOnlyAdds(d: Adjustments.Desk, step: Adjustments.Step)
    ensures |d.adjustments| <= |Adjustments.Next(d, step).adjustments|
  {
  }

  lemma {:induction false} RunAgrees(threshold: int, steps: seq<Adjustments.Step>)
    requires |Adjustments.Run(threshold, steps).adjustments| <= UUIDS
    ensures Agrees(Catalogue(CallsFor(threshold, steps)), Adjustments.Run(threshold, steps))
  {
    if steps == [] {
      assert Catalogue([]) == EMPTY;
      EmptyAgrees(threshold);
    } else {
      var front, last := steps[..|steps| - 1], steps[|steps| - 1];
      var d, calls := Adjustments.Run(threshold, front), CallsFor(threshold, front);
      NextOnlyAdds(d, last);
      RunAgrees(threshold, front);
      Adjustments.RunKeepsInv(threshold, front);
      if last.PostApproval? && last.p < |d.approvals| {
        ApprovalAgrees(calls, d, last.p);
      } else {
        DeskStepAgrees(Catalogue(calls), d, last);
        assert calls + [] == calls;
      }
    }
  }

  /**
   * Over every race on the desk, made on the ledger from an empty chart: the ledger holds
   * the posting of every applied adjustment, once and with its amount and direction, and
   * no other; the stored balance of recon.differences is the signed sum of the applied
   * adjustments, and that of suspense its opposite.
   */
  lemma {:induction false} DifferencesAreApplied(threshold: int, steps: seq<Adjustments.Step>, c: Currency)
    requires |Adjustments.Run(threshold, steps).adjustments| <= UUIDS
    ensures var d, db := Adjustments.Run(threshold, steps), Catalogue(CallsFor(threshold, steps));
            var applied := Sum(d.adjustments, Adjustments.AppliedIn(c));
            && Sound(db) && TxsAgree(db, d.postings)
            && Stored(db, Platform(ReconDifferences, c)) == applied
            && Stored(db, Platform(Suspense, c)) == -applied
  {
    RunAgrees(threshold, steps);
    CatalogueIsSafe(CallsFor(threshold, steps));
    assert RowAgrees(Catalogue(CallsFor(threshold, steps)), Adjustments.Run(threshold, steps).adjustments, c);
  }

  /**
   * What the ledger answers an approval, whatever was decided since it read the row: it
   * posts exactly when the adjustment has no posting yet and the hook finds it proposed; a
   * repetition is recognised as the same posting; and an adjustment that was rejected in
   * between is refused by the hook. Only the first of these changes the ledger.
   */
  lemma {:induction false} ApprovalIsAnswered(threshold: int, steps: seq<Adjustments.Step>, a: nat)
    requires a < |Adjustments.Run(threshold, steps).adjustments| <= UUIDS
    ensures var d := Adjustments.Run(threshold, steps);
            var row := d.adjustments[a];
            var ready := Provisioned(Catalogue(CallsFor(threshold, steps)), "", row.currency, RECON_CODES);
            && HasAccounts(ready.accounts, row.currency)
            && var input := InputFor(ready.accounts, a, Money(row.amount, row.currency), row.debitDifferences);
               var (after, outcome) := Post(ready, input, row.status.Proposed?);
               if Adjustments.PostedFor(d.postings, a) then outcome.Replayed? && after == ready
               else if row.status.Proposed? then outcome.Posted? && after == Commit(ready, input.tx)
               else outcome == Refused(HookFailed) && after == ready
  {
    var d := Adjustments.Run(threshold, steps);
    RunAgrees(threshold, steps);
    Adjustments.RunKeepsInv(threshold, steps);
    EnsureAgrees(Catalogue(CallsFor(threshold, steps)), d, d.adjustments[a].currency);
    LedgerAnswers(Provisioned(Catalogue(CallsFor(threshold, steps)), "", d.adjustments[a].currency, RECON_CODES), d, a);
  }
}
