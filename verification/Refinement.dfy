/**
 * The ledger's tables behave as the log of postings that the lifecycles see: a posting is
 * accepted, refused for lack of balance or known already in the one as in the other, and
 * every balance row holds the sum over the log. So what is proved of the balances of a
 * run of the lifecycles is true of the rows of balance_projections.
 */
module Refinement {
  import opened Prelude
  import opened Money
  import opened Chart
  import opened Ledger
  import opened Acceptance
  import opened Posting
  import opened Books
  import DecimalText

  // ---------------------------------------------------------- the text of keys

  function Family(op: Operation): string {
    match op
    case RequestRefund => "refund"
    case SettleRefund => "refund"
    case CancelRefund => "refund"
    case EmitPayout => "payout"
    case SettlePayout => "payout"
    case FailPayout => "payout"
    case _ => "dispute"
  }

  function Phase(op: Operation): string {
    match op
    case RequestRefund => "request"
    case SettleRefund => "settle"
    case CancelRefund => "cancel"
    case EmitPayout => "emit"
    case SettlePayout => "settle"
    case FailPayout => "fail"
    case OpenDispute => "open"
    case WinDispute => "win"
    case _ => "lose"
  }

  predicate HasLifecycle(op: Operation) {
    || op.RequestRefund? || op.SettleRefund? || op.CancelRefund?
    || op.EmitPayout? || op.SettlePayout? || op.FailPayout?
    || op.OpenDispute? || op.WinDispute? || op.LoseDispute?
  }

  function FamilyOf(key: Key): string {
    match key
    case AttemptKey(_) => "attempt"
    case ResourceKey(op, _) => Family(op)
    case DirectKey(_) => "direct"
  }

  function RestOf(key: Key): string {
    match key
    case AttemptKey(a) => DecimalText.Numeral(a) + [':'] + "capture"
    case ResourceKey(op, id) => DecimalText.Numeral(id) + [':'] + Phase(op)
    case DirectKey(name) => name
  }

  /** The idempotency key, as in `refund:{id}:request`. */
  function KeyText(key: Key): string {
    FamilyOf(key) + [':'] + RestOf(key)
  }

  predicate KeyOk(key: Key) {
    key.ResourceKey? ==> HasLifecycle(key.op)
  }

  lemma {:induction false} FamiliesHaveNoColon(key: Key)
    ensures NoColon(FamilyOf(key))
  {
  }

  lemma {:induction false} NumeralHasNoColon(n: nat)
    ensures NoColon(DecimalText.Numeral(n))
  {
    var s := DecimalText.Numeral(n);
    forall i | 0 <= i < |s| ensures s[i] != ':' {
      assert DecimalText.IsDigit(s[i]);
    }
  }

  lemma {:induction false} NumeralsDistinct(m: nat, n: nat)
    requires DecimalText.Numeral(m) == DecimalText.Numeral(n)
    ensures m == n
  {
    DecimalText.ParseNumeral(m);
    DecimalText.ParseNumeral(n);
  }

  lemma {:induction false} OperationOf(p: Operation, q: Operation)
    requires HasLifecycle(p) && HasLifecycle(q) && Family(p) == Family(q) && Phase(p) == Phase(q)
    ensures p == q
  {
    assert Family(p)[0] == Family(q)[0] && Phase(p)[0] == Phase(q)[0];
  }

  lemma {:induction false} FamilyTellsKind(k: Key, l: Key)
    requires FamilyOf(k) == FamilyOf(l)
    ensures k.AttemptKey? <==> l.AttemptKey?
    ensures k.DirectKey? <==> l.DirectKey?
  {
    assert FamilyOf(k)[0] == FamilyOf(l)[0];
    assert FamilyOf(k)[1] == FamilyOf(l)[1];
  }

  /** Different keys have different texts. */
  lemma {:induction false} KeyTextsDistinct(k: Key, l: Key)
    requires KeyOk(k) && KeyOk(l) && KeyText(k) == KeyText(l)
    ensures k == l
  {
    FamiliesHaveNoColon(k);
    FamiliesHaveNoColon(l);
    HeadAndTail(FamilyOf(k), RestOf(k));
    HeadAndTail(FamilyOf(l), RestOf(l));
    FamilyTellsKind(k, l);
    if k.AttemptKey? {
      RestsDistinct(k.attempt, "capture", l.attempt, "capture");
    } else if k.ResourceKey? {
      RestsDistinct(k.id, Phase(k.op), l.id, Phase(l.op));
      OperationOf(k.op, l.op);
    }
  }

  lemma {:induction false} RestsDistinct(m: nat, p: string, n: nat, q: string)
    requires DecimalText.Numeral(m) + [':'] + p == DecimalText.Numeral(n) + [':'] + q
    ensures m == n && p == q
  {
    NumeralHasNoColon(m);
    NumeralHasNoColon(n);
    HeadAndTail(DecimalText.Numeral(m), p);
    HeadAndTail(DecimalText.Numeral(n), q);
    NumeralsDistinct(m, n);
  }

  // ------------------------------------------------------- a move as a posting

  /** What the ledger demands of a request before it looks at any table. */
  predicate Sendable(m: Move) {
    && KeyOk(m.key) && 8 <= |KeyText(m.key)| <= 200
    && m.amount > 0
    && (m.form.Charge? ==> 0 <= m.form.fee < m.amount)
  }

  predicate Ready(accounts: seq<Account>, m: Move) {
    Complete(ChartIds(accounts, m.merchant, m.currency))
  }

  function ContextOf(m: Move): Context {
    Context(m.merchant, KeyText(m.key), Source(FamilyOf(m.key), KeyText(m.key)))
  }

  /** The request of a move, given the accounts of its chart. */
  function Build(chart: map<Code, AccountId>, c: Context, m: Move): PostInput
    requires Complete(chart)
  {
    match m.form
    case Charge(fee) => CaptureInput(c, Money(m.amount, m.currency), 0, fee, chart)
    case Legs(op) => TwoLegs(op, c, Money(m.amount, m.currency), chart[op.DebitCode()], chart[op.CreditCode()])
  }

  function InputOf(accounts: seq<Account>, m: Move): PostInput
    requires Ready(accounts, m)
  {
    Build(ChartIds(accounts, m.merchant, m.currency), ContextOf(m), m)
  }

  /** The accounts of a complete chart. */
  ghost predicate ChartOf(accounts: seq<Account>, chart: map<Code, AccountId>, merchant: string, currency: Currency) {
    Complete(chart) && forall code: Code :: IsAccount(accounts, code, merchant, currency, chart[code])
  }

  predicate IsAccount(accounts: seq<Account>, code: Code, merchant: string, currency: Currency, a: AccountId) {
    AccountOf(accounts, code, merchant, currency) == Some(a)
  }

  lemma {:induction false} ChartIsChart(accounts: seq<Account>, m: Move)
    requires Ready(accounts, m)
    ensures ChartOf(accounts, ChartIds(accounts, m.merchant, m.currency), m.merchant, m.currency)
    ensures Distinct(ChartIds(accounts, m.merchant, m.currency))
  {
    var chart := ChartIds(accounts, m.merchant, m.currency);
    forall code: Code ensures IsAccount(accounts, code, m.merchant, m.currency, chart[code]) {
      assert code in chart;
    }
    ChartIsDistinct(accounts, m.merchant, m.currency);
  }

  // ----------------------------------------------------- the checks on the request

  lemma {:induction false} ReasonsAreKnown(op: Operation)
    ensures op.Reason() in LEDGER_REASONS && "payment" in LEDGER_REASONS
  {
    assert LEDGER_REASONS[0] == "payment";
    assert LEDGER_REASONS[1] == "refund" && LEDGER_REASONS[3] == "payout" && LEDGER_REASONS[6] == "settlement";
    assert LEDGER_REASONS[9] == "reserve" && LEDGER_REASONS[10] == "dispute";
  }

  lemma {:induction false} TwoEntriesNet(d: Entry, e: Entry, c: Currency)
    ensures Net([d, e], c) == NetOf(c)(d) + NetOf(c)(e)
  {
    assert [d, e] == [] + [d] + [e];
    SumPush([], d, NetOf(c));
    SumPush([d], e, NetOf(c));
  }

  /** A capture without provider fee is two entries, or three. */
  lemma {:induction false} ChargeEntries(amount: Money, fee: int, chart: map<Code, AccountId>)
    requires Complete(chart)
    ensures var sale := Entry(chart[ProviderClearing], Debit, amount.amount, amount.currency, Available);
            var share := Entry(chart[MerchantPending], Credit, amount.amount - fee, amount.currency, Available);
            var cut := Entry(chart[PlatformFees], Credit, fee, amount.currency, Available);
            CaptureEntries(amount, 0, fee, chart) == [sale, share] + if fee > 0 then [cut] else []
  {
  }

  lemma {:induction false} ChargeNet(sale: Entry, share: Entry, cut: Entry, fees: seq<Entry>, c: Currency)
    requires sale.side == Debit && share.side == Credit && cut.side == Credit
    requires sale.currency == share.currency == cut.currency && sale.amount == share.amount + cut.amount
    requires fees == if cut.amount > 0 then [cut] else []
    requires cut.amount >= 0
    ensures Net([sale, share] + fees, c) == 0
  {
    TwoEntriesNet(sale, share, c);
    if cut.amount > 0 {
      SumPush([sale, share], cut, NetOf(c));
    } else {
      assert [sale, share] + fees == [sale, share];
    }
  }

  lemma {:induction false} LegsBalance(op: Operation, c: Context, amount: Money, debit: AccountId, credit: AccountId, x: Currency)
    ensures Net(TwoLegs(op, c, amount, debit, credit).tx.entries, x) == 0
  {
    var entries := TwoLegs(op, c, amount, debit, credit).tx.entries;
    TwoEntriesNet(entries[0], entries[1], x);
  }

  lemma {:induction false} ChargeBalances(amount: Money, fee: int, chart: map<Code, AccountId>, x: Currency)
    requires Complete(chart) && 0 <= fee < amount.amount
    ensures Net(CaptureEntries(amount, 0, fee, chart), x) == 0
  {
    ChargeEntries(amount, fee, chart);
    var cut := Entry(chart[PlatformFees], Credit, fee, amount.currency, Available);
    ChargeNet(Entry(chart[ProviderClearing], Debit, amount.amount, amount.currency, Available),
              Entry(chart[MerchantPending], Credit, amount.amount - fee, amount.currency, Available),
              cut, if fee > 0 then [cut] else [], x);
  }

  lemma {:induction false} LegsAreValid(chart: map<Code, AccountId>, c: Context, m: Move)
    requires Complete(chart) && m.form.Legs? && m.amount > 0
    requires 8 <= |c.key| <= 200 && c.source.kind != "" && c.source.id != ""
    ensures InputFault(Build(chart, c, m).tx).None?
  {
    var op := m.form.op;
    ReasonsAreKnown(op);
    forall x ensures Net(Build(chart, c, m).tx.entries, x) == 0 {
      LegsBalance(op, c, Money(m.amount, m.currency), chart[op.DebitCode()], chart[op.CreditCode()], x);
    }
    FaultFree(Build(chart, c, m).tx);
  }

  lemma {:induction false} ChargeIsValid(chart: map<Code, AccountId>, c: Context, m: Move)
    requires Complete(chart) && m.form.Charge? && 0 <= m.form.fee < m.amount
    requires 8 <= |c.key| <= 200 && c.source.kind != "" && c.source.id != ""
    ensures InputFault(Build(chart, c, m).tx).None?
  {
    ReasonsAreKnown(RequestRefund);
    ChargeEntries(Money(m.amount, m.currency), m.form.fee, chart);
    forall x ensures Net(Build(chart, c, m).tx.entries, x) == 0 {
      ChargeBalances(Money(m.amount, m.currency), m.form.fee, chart, x);
    }
    FaultFree(Build(chart, c, m).tx);
  }

  lemma {:induction false} ContextIsComplete(m: Move)
    requires Sendable(m)
    ensures var c := ContextOf(m); 8 <= |c.key| <= 200 && c.source.kind != "" && c.source.id != ""
  {
    assert |FamilyOf(m.key)| > 0;
  }

  /** Requests built from well-formed moves pass every check that precedes the tables. */
  lemma {:induction false} IsValid(accounts: seq<Account>, m: Move)
    requires Sendable(m) && Ready(accounts, m)
    ensures InputFault(InputOf(accounts, m).tx).None?
  {
    ContextIsComplete(m);
    if m.form.Legs? {
      LegsAreValid(ChartIds(accounts, m.merchant, m.currency), ContextOf(m), m);
    } else {
      ChargeIsValid(ChartIds(accounts, m.merchant, m.currency), ContextOf(m), m);
    }
  }

  // ------------------------------------------------------- the checks on the tables

  predicate OnChart(e: Entry, chart: map<Code, AccountId>, currency: Currency)
    requires Complete(chart)
  {
    e.currency == currency && e.bucket == Available && exists code: Code :: e.account == chart[code]
  }

  lemma {:induction false} BuiltOnChart(chart: map<Code, AccountId>, c: Context, m: Move)
    requires Complete(chart)
    ensures var entries := Build(chart, c, m).tx.entries;
            forall i :: 0 <= i < |entries| ==> OnChart(entries[i], chart, m.currency)
  {
    if m.form.Charge? {
      ChargeEntries(Money(m.amount, m.currency), m.form.fee, chart);
    }
  }

  /** The accounts of the entries exist, live and in their currency. */
  lemma {:induction false} EntriesFit(accounts: seq<Account>, chart: map<Code, AccountId>, merchant: string, currency: Currency, e: Entry)
    requires ChartOf(accounts, chart, merchant, currency) && OnChart(e, chart, currency)
    ensures Visible(accounts, e.account) && accounts[e.account].currency == e.currency
  {
    var code: Code :| e.account == chart[code];
    assert IsAccount(accounts, code, merchant, currency, chart[code]);
  }

  /** Of two entries, some guarded account falls exactly when one of theirs does. */
  lemma {:induction false} ShortOfTwo(db: Db, entries: seq<Entry>, guarded: set<AccountId>)
    requires |entries| == 2
    ensures FirstShort(db, entries, guarded, AccountIds(entries)).Some? <==>
            Falls(db, entries, guarded, entries[0].account) || Falls(db, entries, guarded, entries[1].account)
  {
    var ids := AccountIds(entries);
    AccountIdsAscend(entries);
    ShortIff(db, entries, guarded, ids);
    SomeFalls(db, entries, guarded, ids, entries[0].account);
    SomeFalls(db, entries, guarded, ids, entries[1].account);
    if exists k :: 0 <= k < |ids| && Falls(db, entries, guarded, ids[k]) {
      var k :| 0 <= k < |ids| && Falls(db, entries, guarded, ids[k]);
      assert ids[k] in ids;
      OneOfTwo(entries, ids[k]);
    }
  }

  lemma {:induction false} SomeFalls(db: Db, entries: seq<Entry>, guarded: set<AccountId>, ids: seq<AccountId>, a: AccountId)
    requires a in ids
    ensures Falls(db, entries, guarded, a) ==> exists k :: 0 <= k < |ids| && Falls(db, entries, guarded, ids[k])
  {
    var k :| 0 <= k < |ids| && ids[k] == a;
    assert Falls(db, entries, guarded, a) ==> Falls(db, entries, guarded, ids[k]);
  }

  lemma {:induction false} OneOfTwo(entries: seq<Entry>, a: AccountId)
    requires |entries| == 2 && Touches(entries, a)
    ensures a == entries[0].account || a == entries[1].account
  {
  }

  lemma {:induction false} OperationsHaveTwoAccounts(op: Operation)
    ensures op.DebitCode() != op.CreditCode()
  {
  }

  /** The two accounts after a two-legged request. */
  lemma {:induction false} LegsAfter(db: Db, input: PostInput, op: Operation, c: Context, amount: Money, debit: AccountId, credit: AccountId)
    requires input == TwoLegs(op, c, amount, debit, credit) && debit != credit
    requires NormalOf(db.accounts, debit) == op.DebitCode().Normal()
    requires NormalOf(db.accounts, credit) == op.CreditCode().Normal()
    requires Projected(db.balances, debit).pending == 0 && Projected(db.balances, credit).pending == 0
    ensures Falls(db, input.tx.entries, input.guarded, debit) <==>
            op.DebitCode().Normal() == Credit && Projected(db.balances, debit).available < amount.amount
    ensures Falls(db, input.tx.entries, input.guarded, credit) <==>
            op.CreditCode().Normal() == Debit && Projected(db.balances, credit).available < amount.amount
  {
    var d, e := input.tx.entries[0], input.tx.entries[1];
    TwoEntriesMove(d, e, debit, op.DebitCode().Normal(), Available);
    TwoEntriesMove(d, e, debit, op.DebitCode().Normal(), Pending);
    TwoEntriesMove(d, e, credit, op.CreditCode().Normal(), Available);
    TwoEntriesMove(d, e, credit, op.CreditCode().Normal(), Pending);
  }

  // ------------------------------------------------------- what the tables hold

  /** What the tables say that an account of the chart holds. */
  function Stored(db: Db, x: Acct): int {
    var a := AccountOf(db.accounts, x.code, x.merchant, x.currency);
    if a.None? then 0 else Projected(db.balances, a.value).available
  }

  ghost predicate AllLive(accounts: seq<Account>) {
    forall a :: 0 <= a < |accounts| ==> !accounts[a].deleted
  }

  ghost predicate NonePending(db: Db) {
    forall a: AccountId :: Projected(db.balances, a).pending == 0
  }

  ghost predicate TxMatches(accounts: seq<Account>, tx: Tx, m: Move) {
    KeyOk(m.key) && Ready(accounts, m) && tx == InputOf(accounts, m).tx
  }

  ghost predicate TxsMatch(db: Db, log: seq<Move>) {
    |db.txs| == |log| && forall i :: 0 <= i < |log| ==> TxMatches(db.accounts, db.txs[i], log[i])
  }

  ghost predicate BalancesMatch(db: Db, log: seq<Move>) {
    forall x: Acct :: Stored(db, x) == Bal(log, x)
  }

  ghost predicate Represents(db: Db, log: seq<Move>) {
    && Charted(db.accounts) && AllLive(db.accounts) && NonePending(db)
    && TxsMatch(db, log) && BalancesMatch(db, log)
    && forall a :: a in db.balances ==> a < |db.accounts|
  }

  // ------------------------------------------------------------ keys known alike

  lemma {:induction false} KeysAlike(txs: seq<Tx>, log: seq<Move>, key: Key, text: string)
    requires |txs| == |log|
    requires forall i :: 0 <= i < |log| ==> (txs[i].key == text <==> log[i].key == key)
    ensures FindKey(txs, text).Some? <==> FindMove(log, key).Some?
    ensures FindKey(txs, text).Some? ==>
              FindKey(txs, text).value < |log| && FindMove(log, key) == Some(log[FindKey(txs, text).value])
  {
    var n := |log| - 1;
    if log != [] && txs[n].key != text {
      var front, rest := txs[..n], log[..n];
      assert forall i :: 0 <= i < n ==> rest[i] == log[i] && front[i] == txs[i];
      KeysAlike(front, rest, key, text);
    }
  }

  lemma {:induction false} FindAlike(db: Db, log: seq<Move>, key: Key)
    requires TxsMatch(db, log) && KeyOk(key)
    ensures FindKey(db.txs, KeyText(key)).Some? <==> FindMove(log, key).Some?
    ensures FindKey(db.txs, KeyText(key)).Some? ==>
              var i := FindKey(db.txs, KeyText(key)).value; i < |log| && FindMove(log, key) == Some(log[i])
  {
    forall i | 0 <= i < |log| ensures db.txs[i].key == KeyText(key) <==> log[i].key == key {
      assert TxMatches(db.accounts, db.txs[i], log[i]);
      InputKey(db.accounts, log[i]);
      if db.txs[i].key == KeyText(key) {
        KeyTextsDistinct(log[i].key, key);
      }
    }
    KeysAlike(db.txs, log, key, KeyText(key));
  }

  lemma {:induction false} InputKey(accounts: seq<Account>, m: Move)
    requires Ready(accounts, m)
    ensures InputOf(accounts, m).tx.key == KeyText(m.key) && InputOf(accounts, m).tx.reverses.None?
  {
  }

  // ---------------------------------------------------------- refused alike

  lemma {:induction false} CodeOnChart(db: Db, chart: map<Code, AccountId>, merchant: string, currency: Currency, code: Code)
    requires Charted(db.accounts) && ChartOf(db.accounts, chart, merchant, currency)
    ensures NormalOf(db.accounts, chart[code]) == code.Normal()
    ensures Stored(db, Acct(code, merchant, currency)) == Projected(db.balances, chart[code]).available
  {
    assert IsAccount(db.accounts, code, merchant, currency, chart[code]);
    AccountIsCharted(db.accounts, code, merchant, currency);
  }

  /** The ledger refuses a two-legged move for lack of balance exactly when the log does. */
  lemma {:induction false} ShortAlike(db: Db, log: seq<Move>, chart: map<Code, AccountId>, c: Context, m: Move)
    requires Charted(db.accounts) && NonePending(db) && BalancesMatch(db, log) && m.form.Legs?
    requires ChartOf(db.accounts, chart, m.merchant, m.currency) && Distinct(chart)
    ensures var input := Build(chart, c, m);
            FirstShort(db, input.tx.entries, input.guarded, AccountIds(input.tx.entries)).Some? <==> Short(log, m)
  {
    var input, op := Build(chart, c, m), m.form.op;
    OperationsHaveTwoAccounts(op);
    CodeOnChart(db, chart, m.merchant, m.currency, op.DebitCode());
    CodeOnChart(db, chart, m.merchant, m.currency, op.CreditCode());
    StoredIsBal(db, log, Acct(op.DebitCode(), m.merchant, m.currency));
    StoredIsBal(db, log, Acct(op.CreditCode(), m.merchant, m.currency));
    ShortOfTwo(db, input.tx.entries, input.guarded);
    LegsAfter(db, input, op, c, Money(m.amount, m.currency), chart[op.DebitCode()], chart[op.CreditCode()]);
  }

  lemma {:induction false} StoredIsBal(db: Db, log: seq<Move>, x: Acct)
    requires BalancesMatch(db, log)
    ensures Stored(db, x) == Bal(log, x)
  {
  }

  lemma {:induction false} NothingGuarded(db: Db, entries: seq<Entry>, ids: seq<AccountId>)
    ensures FirstShort(db, entries, {}, ids).None?
  {
    ShortIff(db, entries, {}, ids);
    assert forall k :: 0 <= k < |ids| ==> !Falls(db, entries, {}, ids[k]);
  }

  lemma {:induction false} OnlyShortRemains(db: Db, input: PostInput)
    requires input.tx.reverses.None?
    requires forall i :: 0 <= i < |input.tx.entries| ==>
               Visible(db.accounts, input.tx.entries[i].account)
               && db.accounts[input.tx.entries[i].account].currency == input.tx.entries[i].currency
    ensures CommitFault(db, input, true) == FirstShort(db, input.tx.entries, input.guarded, AccountIds(input.tx.entries))
  {
    var entries := input.tx.entries;
    AccountIdsAscend(entries);
    NoneMissing(db.accounts, AccountIds(entries));
    AllMatch(db.accounts, entries);
  }

  /** With a fresh key, only a lack of balance can stop a well-formed move. */
  lemma {:induction false} OnlyShortStops(db: Db, log: seq<Move>, m: Move)
    requires Charted(db.accounts) && NonePending(db) && BalancesMatch(db, log) && Ready(db.accounts, m)
    ensures var fault := CommitFault(db, InputOf(db.accounts, m), true);
            && (fault.Some? <==> Short(log, m))
            && (fault.Some? ==> fault.value.Insufficient?)
  {
    var chart, c, input := ChartIds(db.accounts, m.merchant, m.currency), ContextOf(m), InputOf(db.accounts, m);
    var entries := input.tx.entries;
    ChartIsChart(db.accounts, m);
    BuiltOnChart(chart, c, m);
    forall i | 0 <= i < |entries|
      ensures Visible(db.accounts, entries[i].account)
              && db.accounts[entries[i].account].currency == entries[i].currency
    {
      EntriesFit(db.accounts, chart, m.merchant, m.currency, entries[i]);
    }
    InputKey(db.accounts, m);
    OnlyShortRemains(db, input);
    ShortIff(db, entries, input.guarded, AccountIds(entries));
    if m.form.Legs? {
      ShortAlike(db, log, chart, c, m);
    } else {
      NothingGuarded(db, entries, AccountIds(entries));
    }
  }

  // ---------------------------------------------------- what a commit stores

  /** The account of x is the one that the move uses for a code exactly when x is that account. */
  lemma {:induction false} SameAccount(accounts: seq<Account>, chart: map<Code, AccountId>, m: Move, code: Code, x: Acct, a: AccountId)
    requires ChartOf(accounts, chart, m.merchant, m.currency) && IsAccount(accounts, x.code, x.merchant, x.currency, a)
    ensures a == chart[code] <==> Uses(m, code, x)
  {
    assert IsAccount(accounts, code, m.merchant, m.currency, chart[code]);
    if a == chart[code] {
      NamesDistinct(x.code, x.merchant, code, m.merchant);
    }
  }

  lemma {:induction false} LegsStored(accounts: seq<Account>, chart: map<Code, AccountId>, c: Context, m: Move, x: Acct, a: AccountId)
    requires ChartOf(accounts, chart, m.merchant, m.currency) && IsAccount(accounts, x.code, x.merchant, x.currency, a)
    requires m.form.Legs?
    ensures Moved(Build(chart, c, m).tx.entries, a, x.code.Normal(), Available) == Effect(m, x)
  {
    var op := m.form.op;
    var entries := Build(chart, c, m).tx.entries;
    SameAccount(accounts, chart, m, op.DebitCode(), x, a);
    SameAccount(accounts, chart, m, op.CreditCode(), x, a);
    OperationsHaveTwoAccounts(op);
    TwoEntriesMove(entries[0], entries[1], a, x.code.Normal(), Available);
  }

  lemma {:induction false} ChargeStored(accounts: seq<Account>, chart: map<Code, AccountId>, c: Context, m: Move, x: Acct, a: AccountId)
    requires ChartOf(accounts, chart, m.merchant, m.currency) && IsAccount(accounts, x.code, x.merchant, x.currency, a)
    requires m.form.Charge? && m.form.fee >= 0
    ensures Moved(Build(chart, c, m).tx.entries, a, x.code.Normal(), Available) == Effect(m, x)
  {
    var f, fee, normal := Moves(a, x.code.Normal(), Available), m.form.fee, x.code.Normal();
    SameAccount(accounts, chart, m, ProviderClearing, x, a);
    SameAccount(accounts, chart, m, MerchantPending, x, a);
    SameAccount(accounts, chart, m, PlatformFees, x, a);
    CaptureSum(Money(m.amount, m.currency), 0, fee, chart, a, normal, Available);
    EntryMoves(chart[ProviderFees], Debit, 0, m.currency, a, normal);
    EntryMoves(chart[ProviderPayable], Credit, 0, m.currency, a, normal);
    EntryMoves(chart[ProviderClearing], Debit, m.amount, m.currency, a, normal);
    EntryMoves(chart[MerchantPending], Credit, m.amount - fee, m.currency, a, normal);
    EntryMoves(chart[PlatformFees], Credit, fee, m.currency, a, normal);
    ChargeTerms(f(Entry(chart[ProviderClearing], Debit, m.amount, m.currency, Available)),
                f(Entry(chart[MerchantPending], Credit, m.amount - fee, m.currency, Available)),
                f(Entry(chart[PlatformFees], Credit, fee, m.currency, Available)), m, x);
  }

  lemma {:induction false} EntryMoves(b: AccountId, side: Side, v: int, currency: Currency, a: AccountId, normal: Side)
    ensures Moves(a, normal, Available)(Entry(b, side, v, currency, Available))
         == if b == a then Signed(side, normal, v) else 0
  {
  }

  lemma {:induction false} ChargeTerms(sale: int, share: int, cut: int, m: Move, x: Acct)
    requires m.form.Charge?
    requires sale == if Uses(m, ProviderClearing, x) then Signed(Debit, x.code.Normal(), m.amount) else 0
    requires share == if Uses(m, MerchantPending, x) then Signed(Credit, x.code.Normal(), m.amount - m.form.fee) else 0
    requires cut == if Uses(m, PlatformFees, x) then Signed(Credit, x.code.Normal(), m.form.fee) else 0
    ensures sale + share + cut == Effect(m, x)
  {
  }

  lemma {:induction false} EffectStored(accounts: seq<Account>, chart: map<Code, AccountId>, c: Context, m: Move, x: Acct, a: AccountId)
    requires ChartOf(accounts, chart, m.merchant, m.currency) && IsAccount(accounts, x.code, x.merchant, x.currency, a)
    requires m.form.Charge? ==> m.form.fee >= 0
    ensures Moved(Build(chart, c, m).tx.entries, a, x.code.Normal(), Available) == Effect(m, x)
  {
    if m.form.Legs? {
      LegsStored(accounts, chart, c, m, x, a);
    } else {
      ChargeStored(accounts, chart, c, m, x, a);
    }
  }

  /** A move has no effect on an account that does not exist. */
  lemma {:induction false} NoEffectElsewhere(accounts: seq<Account>, chart: map<Code, AccountId>, m: Move, x: Acct)
    requires ChartOf(accounts, chart, m.merchant, m.currency)
    requires AccountOf(accounts, x.code, x.merchant, x.currency).None?
    ensures Effect(m, x) == 0
  {
    forall code: Code ensures !Uses(m, code, x) {
      assert IsAccount(accounts, code, m.merchant, m.currency, chart[code]);
    }
  }

  lemma {:induction false} NothingPending(entries: seq<Entry>, a: AccountId, normal: Side)
    requires forall i :: 0 <= i < |entries| ==> entries[i].bucket == Available
    ensures Moved(entries, a, normal, Pending) == 0
  {
    if entries != [] {
      var front := entries[..|entries| - 1];
      assert forall i :: 0 <= i < |front| ==> front[i] == entries[i];
      NothingPending(front, a, normal);
    }
  }

  lemma {:induction false} CommitMoves(db: Db, tx: Tx, a: AccountId, bucket: Bucket)
    ensures Projected(Commit(db, tx).balances, a).In(bucket)
         == Projected(db.balances, a).In(bucket) + Moved(tx.entries, a, NormalOf(db.accounts, a), bucket)
  {
    AccountIdsAscend(tx.entries);
    if a !in AccountIds(tx.entries) {
      UntouchedStays(tx.entries, a, NormalOf(db.accounts, a), bucket);
    }
  }

  lemma {:induction false} CommitStores(db: Db, log: seq<Move>, m: Move, x: Acct)
    requires Charted(db.accounts) && BalancesMatch(db, log) && Ready(db.accounts, m)
    requires m.form.Charge? ==> m.form.fee >= 0
    ensures Stored(Commit(db, InputOf(db.accounts, m).tx), x) == Bal(log + [m], x)
  {
    var chart, tx := ChartIds(db.accounts, m.merchant, m.currency), InputOf(db.accounts, m).tx;
    ChartIsChart(db.accounts, m);
    StoredIsBal(db, log, x);
    BalPush(log, m, x);
    var a := AccountOf(db.accounts, x.code, x.merchant, x.currency);
    if a.None? {
      NoEffectElsewhere(db.accounts, chart, m, x);
    } else {
      CommitMoves(db, tx, a.value, Available);
      AccountIsCharted(db.accounts, x.code, x.merchant, x.currency);
      EffectStored(db.accounts, chart, ContextOf(m), m, x, a.value);
    }
  }

  lemma {:induction false} CommitKeepsPending(db: Db, m: Move)
    requires NonePending(db) && Ready(db.accounts, m)
    ensures NonePending(Commit(db, InputOf(db.accounts, m).tx))
  {
    var tx := InputOf(db.accounts, m).tx;
    BuiltOnChart(ChartIds(db.accounts, m.merchant, m.currency), ContextOf(m), m);
    forall a: AccountId ensures Projected(Commit(db, tx).balances, a).pending == 0 {
      assert Projected(db.balances, a).pending == 0;
      CommitMoves(db, tx, a, Pending);
      NothingPending(tx.entries, a, NormalOf(db.accounts, a));
      assert Projected(Commit(db, tx).balances, a).In(Pending) == Projected(Commit(db, tx).balances, a).pending;
    }
  }

  lemma {:induction false} CommitKeepsRowsInRange(db: Db, m: Move)
    requires (forall a :: a in db.balances ==> a < |db.accounts|) && Ready(db.accounts, m)
    ensures forall a :: a in Commit(db, InputOf(db.accounts, m).tx).balances ==> a < |db.accounts|
  {
    var chart, entries := ChartIds(db.accounts, m.merchant, m.currency), InputOf(db.accounts, m).tx.entries;
    ChartIsChart(db.accounts, m);
    BuiltOnChart(chart, ContextOf(m), m);
    AccountIdsAscend(entries);
    forall a | a in AccountIds(entries) ensures a < |db.accounts| {
      var i :| 0 <= i < |entries| && entries[i].account == a;
      EntriesFit(db.accounts, chart, m.merchant, m.currency, entries[i]);
    }
  }

  lemma {:induction false} TxsMatchPush(db: Db, after: Db, log: seq<Move>, m: Move)
    requires TxsMatch(db, log) && after.accounts == db.accounts && Ready(db.accounts, m)
    requires TxMatches(db.accounts, InputOf(db.accounts, m).tx, m) && after.txs == db.txs + [InputOf(db.accounts, m).tx]
    ensures TxsMatch(after, log + [m])
  {
    forall i | 0 <= i < |log| + 1 ensures TxMatches(after.accounts, after.txs[i], (log + [m])[i]) {
      if i < |log| {
        assert TxMatches(db.accounts, db.txs[i], log[i]);
      }
    }
  }

  lemma {:induction false} CommitRepresents(db: Db, log: seq<Move>, m: Move)
    requires Represents(db, log) && Sendable(m) && Ready(db.accounts, m)
    ensures Represents(Commit(db, InputOf(db.accounts, m).tx), log + [m])
  {
    var after := Commit(db, InputOf(db.accounts, m).tx);
    CommitKeepsPending(db, m);
    CommitKeepsRowsInRange(db, m);
    TxsMatchPush(db, after, log, m);
    forall x: Acct ensures Stored(after, x) == Bal(log + [m], x) {
      CommitStores(db, log, m, x);
    }
  }

  lemma {:induction false} ReplayedAlike(db: Db, log: seq<Move>, m: Move, i: nat)
    requires TxsMatch(db, log) && Ready(db.accounts, m) && i < |log| && log[i] == m
    ensures SameFingerprint(db.txs[i], InputOf(db.accounts, m).tx)
  {
    assert TxMatches(db.accounts, db.txs[i], log[i]);
  }

  ghost predicate Alike(before: Db, after: Db, outcome: Outcome, log: seq<Move>, m: Move) {
    match Ask(log, m)
    case Posted => outcome.Posted? && Represents(after, log + [m])
    case Insufficient => outcome.Refused? && outcome.fault.Insufficient? && after == before
    case Replayed => outcome.Replayed? && after == before
    case Conflict => !outcome.Posted? && after == before
  }

  lemma {:induction false} PostOfKnown(db: Db, input: PostInput, i: nat)
    requires InputFault(input.tx).None? && FindKey(db.txs, input.tx.key) == Some(i) && i < |db.txs|
    ensures Post(db, input, true).0 == db
    ensures Post(db, input, true).1 ==
            if SameFingerprint(db.txs[i], input.tx) then Outcome.Replayed(i) else Refused(KeyConflict)
  {
  }

  lemma {:induction false} PostOfFresh(db: Db, input: PostInput)
    requires InputFault(input.tx).None? && FindKey(db.txs, input.tx.key).None?
    ensures var fault := CommitFault(db, input, true);
            && Post(db, input, true).0 == (if fault.Some? then db else Commit(db, input.tx))
            && Post(db, input, true).1 == (if fault.Some? then Refused(fault.value) else Outcome.Posted(|db.txs|))
  {
  }

  lemma {:induction false} AskIsAnswered(log: seq<Move>, m: Move)
    ensures FindMove(log, m.key) == Some(m) ==> Ask(log, m) == Answer.Replayed
    ensures FindMove(log, m.key).Some? && FindMove(log, m.key) != Some(m) ==> Ask(log, m) == Answer.Conflict
    ensures FindMove(log, m.key).None? ==> Ask(log, m) == if Short(log, m) then Answer.Insufficient else Answer.Posted
  {
  }

  lemma {:induction false} KnownAlike(db: Db, log: seq<Move>, m: Move, input: PostInput, i: nat)
    requires TxsMatch(db, log) && Ready(db.accounts, m) && input == InputOf(db.accounts, m)
    requires InputFault(input.tx).None? && FindKey(db.txs, input.tx.key) == Some(i)
    requires i < |log| && FindMove(log, m.key) == Some(log[i])
    ensures Alike(db, Post(db, input, true).0, Post(db, input, true).1, log, m)
  {
    PostOfKnown(db, input, i);
    AskIsAnswered(log, m);
    if log[i] == m {
      ReplayedAlike(db, log, m, i);
    }
  }

  lemma {:induction false} FreshAlike(db: Db, log: seq<Move>, m: Move, input: PostInput, fault: Option<Fault>)
    requires Represents(db, log) && Sendable(m) && Ready(db.accounts, m) && input == InputOf(db.accounts, m)
    requires InputFault(input.tx).None? && FindKey(db.txs, input.tx.key).None? && FindMove(log, m.key).None?
    requires fault == CommitFault(db, input, true)
    requires (fault.Some? <==> Short(log, m)) && (fault.Some? ==> fault.value.Insufficient?)
    ensures Alike(db, Post(db, input, true).0, Post(db, input, true).1, log, m)
  {
    PostOfFresh(db, input);
    AskIsAnswered(log, m);
    if fault.None? {
      CommitRepresents(db, log, m);
    }
  }

  /**
   * The ledger answers a posting as the log does: it posts, and then represents the
   * longer log, exactly when the log accepts; it refuses for lack of balance exactly when
   * the log does; and a key that is known already changes nothing.
   */
  lemma {:induction false} PostRefines(db: Db, log: seq<Move>, m: Move)
    requires Represents(db, log) && Sendable(m) && Ready(db.accounts, m)
    ensures var input := InputOf(db.accounts, m);
            Alike(db, Post(db, input, true).0, Post(db, input, true).1, log, m)
  {
    var input := InputOf(db.accounts, m);
    IsValid(db.accounts, m);
    InputKey(db.accounts, m);
    FindAlike(db, log, m.key);
    OnlyShortStops(db, log, m);
    if FindKey(db.txs, input.tx.key).Some? {
      KnownAlike(db, log, m, input, FindKey(db.txs, input.tx.key).value);
    } else {
      FreshAlike(db, log, m, input, CommitFault(db, input, true));
    }
  }
}
