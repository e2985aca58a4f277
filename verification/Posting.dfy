/**
 * The closed catalogue of postings over the chart of accounts
 * (packages/ledger/src/posting.ts).
 */
module Posting {
  import opened Prelude
  import opened Money
  import opened Chart
  import opened Ledger
  import opened Service

  datatype Context = Context(merchant: string, key: string, source: Source)

  /** The operations that move one amount between two accounts. */
  datatype Operation =
    | ReleaseSettlement | RequestRefund | SettleRefund | CancelRefund | HoldReserve | ReleaseReserve
    | ReceiveProviderSettlement | EmitPayout | SettlePayout | FailPayout | OpenDispute | WinDispute | LoseDispute
  {
    function DebitCode(): Code {
      match this
      case ReleaseSettlement => MerchantPending
      case RequestRefund => MerchantAvailable
      case SettleRefund => RefundLiability
      case CancelRefund => RefundLiability
      case HoldReserve => MerchantAvailable
      case ReleaseReserve => MerchantReserve
      case ReceiveProviderSettlement => PlatformCash
      case EmitPayout => MerchantAvailable
      case SettlePayout => PayoutInTransit
      case FailPayout => PayoutInTransit
      case OpenDispute => MerchantAvailable
      case WinDispute => DisputeReserve
      case LoseDispute => DisputeReserve
    }

    function CreditCode(): Code {
      match this
      case ReleaseSettlement => MerchantAvailable
      case RequestRefund => RefundLiability
      case SettleRefund => ProviderClearing
      case CancelRefund => MerchantAvailable
      case HoldReserve => MerchantReserve
      case ReleaseReserve => MerchantAvailable
      case ReceiveProviderSettlement => ProviderClearing
      case EmitPayout => PayoutInTransit
      case SettlePayout => PlatformCash
      case FailPayout => MerchantAvailable
      case OpenDispute => DisputeReserve
      case WinDispute => MerchantAvailable
      case LoseDispute => ProviderClearing
    }

    function Reason(): string {
      match this
      case ReleaseSettlement => "settlement"
      case ReceiveProviderSettlement => "settlement"
      case RequestRefund => "refund"
      case SettleRefund => "refund"
      case CancelRefund => "refund"
      case HoldReserve => "reserve"
      case ReleaseReserve => "reserve"
      case EmitPayout => "payout"
      case SettlePayout => "payout"
      case FailPayout => "payout"
      case _ => "dispute"
    }
  }

  datatype Refusal =
    | AmountNotPositive
    | NegativeFee
    | MixedCurrencies
    | FeesExceedAmount
    | UnknownAccountCode(code: Code)

  // ------------------------------------------------------------- the chart

  /** The live account of a code. */
  function AccountOf(accounts: seq<Account>, code: Code, merchant: string, currency: Currency): Option<AccountId> {
    var id := Find(accounts, AccountName(code, merchant), currency);
    if id.Some? && !accounts[id.value].deleted then id else None
  }

  function ChartIds(accounts: seq<Account>, merchant: string, currency: Currency): map<Code, AccountId> {
    map code: Code | AccountOf(accounts, code, merchant, currency).Some? ::
      AccountOf(accounts, code, merchant, currency).value
  }

  /** The account has this name and currency and is not retired. */
  predicate IsLive(accounts: seq<Account>, a: AccountId, name: string, currency: Currency) {
    a < |accounts| && accounts[a].name == name && accounts[a].currency == currency && !accounts[a].deleted
  }

  predicate Complete(chart: map<Code, AccountId>) {
    forall code: Code :: code in chart
  }

  function ProvisionStep(code: Code, merchant: string, currency: Currency): Step {
    Provision(AccountName(code, merchant), currency, code.Normal())
  }

  function Provisions(merchant: string, currency: Currency, codes: seq<Code>): seq<Step> {
    if codes == [] then []
    else Provisions(merchant, currency, codes[..|codes| - 1]) + [ProvisionStep(codes[|codes| - 1], merchant, currency)]
  }

  ghost function Provisioned(db: Db, merchant: string, currency: Currency, codes: seq<Code>): Db {
    Extend(db, Provisions(merchant, currency, codes))
  }

  lemma {:induction false} ProvisionedPush(db: Db, merchant: string, currency: Currency, codes: seq<Code>, code: Code)
    ensures Provisioned(db, merchant, currency, codes + [code])
         == Next(Provisioned(db, merchant, currency, codes), ProvisionStep(code, merchant, currency))
  {
    assert (codes + [code])[..|codes|] == codes;
    var steps := Provisions(merchant, currency, codes);
    assert (steps + [ProvisionStep(code, merchant, currency)])[..|steps|] == steps;
  }

  /** Accounts of different codes are different accounts. */
  lemma {:induction false} CodesApart(accounts: seq<Account>, c: Code, d: Code, merchant: string, currency: Currency)
    requires c != d
    requires AccountOf(accounts, c, merchant, currency).Some? && AccountOf(accounts, d, merchant, currency).Some?
    ensures AccountOf(accounts, c, merchant, currency) != AccountOf(accounts, d, merchant, currency)
  {
    if AccountName(c, merchant) == AccountName(d, merchant) {
      NamesDistinct(c, merchant, d, merchant);
    }
  }

  // ---------------------------------------------------------- the postings

  /** A movement of `amount` between two accounts, guarding the one that decreases. */
  function TwoLegs(op: Operation, c: Context, amount: Money, debit: AccountId, credit: AccountId): PostInput {
    PostInput(
      Tx(c.key, op.Reason(), c.source, None,
         [Entry(debit, Debit, amount.amount, amount.currency, Available),
          Entry(credit, Credit, amount.amount, amount.currency, Available)]),
      (if op.DebitCode().Normal() == Credit then {debit} else {})
      + (if op.CreditCode().Normal() == Debit then {credit} else {}))
  }

  function CaptureRefusal(amount: Money, providerFee: Money, platformFee: Money): Option<Refusal> {
    if providerFee.amount < 0 || platformFee.amount < 0 then Some(NegativeFee)
    else if providerFee.currency != platformFee.currency || amount.currency != providerFee.currency then Some(MixedCurrencies)
    else if amount.amount - (providerFee.amount + platformFee.amount) <= 0 then Some(FeesExceedAmount)
    else None
  }

  function CaptureEntries(amount: Money, providerFee: int, platformFee: int, chart: map<Code, AccountId>): seq<Entry>
    requires Complete(chart)
  {
    [Entry(chart[ProviderClearing], Debit, amount.amount, amount.currency, Available)]
    + (if providerFee > 0 then
         [Entry(chart[ProviderFees], Debit, providerFee, amount.currency, Available),
          Entry(chart[ProviderPayable], Credit, providerFee, amount.currency, Available)]
       else [])
    + [Entry(chart[MerchantPending], Credit, amount.amount - platformFee, amount.currency, Available)]
    + (if platformFee > 0 then [Entry(chart[PlatformFees], Credit, platformFee, amount.currency, Available)] else [])
  }

  function CaptureInput(c: Context, amount: Money, providerFee: int, platformFee: int, chart: map<Code, AccountId>): PostInput
    requires Complete(chart)
  {
    PostInput(Tx(c.key, "payment", c.source, None, CaptureEntries(amount, providerFee, platformFee, chart)), {})
  }

  function ReconInput(c: Context, amount: Money, debitDifferences: bool, differences: AccountId, suspense: AccountId): PostInput {
    PostInput(
      Tx(c.key, "reconciliation", c.source, None,
         [Entry(if debitDifferences then differences else suspense, Debit, amount.amount, amount.currency, Available),
          Entry(if debitDifferences then suspense else differences, Credit, amount.amount, amount.currency, Available)]),
      {})
  }

  const RECON_CODES: seq<Code> := [ReconDifferences, Suspense]

  /** The chart names the live account of each of the codes. */
  ghost predicate Resolved(accounts: seq<Account>, merchant: string, currency: Currency, codes: seq<Code>,
                           chart: map<Code, AccountId>)
  {
    forall code :: code in codes ==>
      code in chart && AccountOf(accounts, code, merchant, currency) == Some(chart[code])
  }

  lemma {:induction false} ResolvedPush(accounts: seq<Account>, merchant: string, currency: Currency, codes: seq<Code>,
                                        chart: map<Code, AccountId>, code: Code, a: AccountId)
    requires Resolved(accounts, merchant, currency, codes, chart)
    requires AccountOf(accounts, code, merchant, currency) == Some(a)
    ensures Resolved(accounts, merchant, currency, codes + [code], chart[code := a])
  {
    forall c | c in codes + [code]
      ensures c in chart[code := a] && AccountOf(accounts, c, merchant, currency) == Some(chart[code := a][c])
    {
      if c != code {
        assert c in codes;
      }
    }
  }

  lemma {:induction false} ResolvedNext(accounts: seq<Account>, merchant: string, currency: Currency, codes: seq<Code>, i: nat,
                                        chart: map<Code, AccountId>, a: AccountId)
    requires i < |codes| && Resolved(accounts, merchant, currency, codes[..i], chart)
    requires AccountOf(accounts, codes[i], merchant, currency) == Some(a)
    ensures Resolved(accounts, merchant, currency, codes[..i + 1], chart[codes[i] := a])
  {
    ResolvedPush(accounts, merchant, currency, codes[..i], chart, codes[i], a);
    assert codes[..i + 1] == codes[..i] + [codes[i]];
  }

  class PostingService {
    const ledger: LedgerService

    constructor (ledger: LedgerService)
      ensures this.ledger == ledger
    {
      this.ledger := ledger;
    }

    /** Adds the accounts and rows that the codes lack, and returns the accounts by code. */
    method Ensure(merchant: string, currency: Currency, codes: seq<Code>) returns (chart: Result<map<Code, AccountId>, Code>)
      modifies ledger
      ensures ledger.State() == Provisioned(old(ledger.State()), merchant, currency, codes)
      ensures chart.Err? ==> chart.error in codes && AccountOf(ledger.accounts, chart.error, merchant, currency).None?
      ensures chart.Ok? ==> Resolved(ledger.accounts, merchant, currency, codes, chart.value)
    {
      ProvisionAll(merchant, currency, codes);
      chart := Resolve(merchant, currency, codes);
    }

    method ProvisionAll(merchant: string, currency: Currency, codes: seq<Code>)
      modifies ledger
      ensures ledger.State() == Provisioned(old(ledger.State()), merchant, currency, codes)
    {
      ghost var before := ledger.State();
      var i := 0;
      while i < |codes|
        invariant 0 <= i <= |codes|
        invariant ledger.State() == Provisioned(before, merchant, currency, codes[..i])
      {
        ProvisionedPush(before, merchant, currency, codes[..i], codes[i]);
        assert codes[..i + 1] == codes[..i] + [codes[i]];
        ProvisionOne(AccountName(codes[i], merchant), currency, codes[i].Normal());
        i := i + 1;
      }
      assert codes[..i] == codes;
    }

    /** The live accounts of the codes, or the first code that has none. */
    method Resolve(merchant: string, currency: Currency, codes: seq<Code>) returns (chart: Result<map<Code, AccountId>, Code>)
      ensures chart.Err? ==> chart.error in codes && AccountOf(ledger.accounts, chart.error, merchant, currency).None?
      ensures chart.Ok? ==> Resolved(ledger.accounts, merchant, currency, codes, chart.value)
    {
      var ids: map<Code, AccountId> := map[];
      var i := 0;
      while i < |codes|
        invariant 0 <= i <= |codes|
        invariant Resolved(ledger.accounts, merchant, currency, codes[..i], ids)
      {
        var code := codes[i];
        var id := AccountOf(ledger.accounts, code, merchant, currency);
        if id.None? {
          return Err(code);
        }
        ResolvedNext(ledger.accounts, merchant, currency, codes, i, ids, id.value);
        ids := ids[code := id.value];
        i := i + 1;
      }
      assert codes[..i] == codes;
      return Ok(ids);
    }

    method ProvisionOne(name: string, currency: Currency, normal: Side)
      modifies ledger
      ensures ledger.State() == Next(old(ledger.State()), Provision(name, currency, normal))
    {
      var known := Find(ledger.accounts, name, currency);
      if known.None? {
        var id := ledger.CreateAccount(name, currency, normal);
      } else if known.value !in ledger.balances {
        ledger.balances := ledger.balances[known.value := Balance(0, 0, 0)];
      }
    }

    method EnsureChart(merchant: string, currency: Currency) returns (chart: Result<map<Code, AccountId>, Code>)
      modifies ledger
      ensures ledger.State() == Provisioned(old(ledger.State()), merchant, currency, CODES)
      ensures chart.Err? ==> !Complete(ChartIds(ledger.accounts, merchant, currency))
      ensures chart.Ok? ==> Complete(chart.value) && chart.value == ChartIds(ledger.accounts, merchant, currency)
      ensures chart.Ok? ==> forall code: Code :: IsLive(ledger.accounts, chart.value[code], AccountName(code, merchant), currency)
    {
      chart := Ensure(merchant, currency, CODES);
      if chart.Ok? {
        forall code: Code ensures code in chart.value
          && AccountOf(ledger.accounts, code, merchant, currency) == Some(chart.value[code])
          && IsLive(ledger.accounts, chart.value[code], AccountName(code, merchant), currency)
        {
          CodesAreAll(code);
        }
      } else {
        assert chart.error !in ChartIds(ledger.accounts, merchant, currency);
      }
    }

    /** Every operation of the catalogue but the capture and the adjustment. */
    method TwoLegged(op: Operation, c: Context, amount: Money, hookOk: bool, faults: seq<Option<EngineFault>>)
      returns (answer: Result<Answer, Refusal>)
      modifies ledger
      ensures answer == Err(AmountNotPositive) <==> amount.amount <= 0
      ensures amount.amount <= 0 ==> ledger.State() == old(ledger.State())
      ensures amount.amount > 0 ==>
                var ready := Provisioned(old(ledger.State()), c.merchant, amount.currency, CODES);
                var chart := ChartIds(ready.accounts, c.merchant, amount.currency);
                if Complete(chart) then
                  && answer.Ok?
                  && PostedWith(ready, ledger.State(), TwoLegs(op, c, amount, chart[op.DebitCode()], chart[op.CreditCode()]),
                                hookOk, faults, ledger.maxRetries, answer.value)
                else answer.Err? && answer.error.UnknownAccountCode? && ledger.State() == ready
    {
      if amount.amount <= 0 {
        return Err(AmountNotPositive);
      }
      var ensured := EnsureChart(c.merchant, amount.currency);
      if ensured.Err? {
        return Err(UnknownAccountCode(ensured.error));
      }
      var chart := ensured.value;
      var input := LegsOf(op, c, amount, chart);
      var posted := ledger.PostTransaction(input, hookOk, faults);
      return Ok(posted);
    }

    method LegsOf(op: Operation, c: Context, amount: Money, chart: map<Code, AccountId>) returns (input: PostInput)
      requires Complete(chart)
      ensures input == TwoLegs(op, c, amount, chart[op.DebitCode()], chart[op.CreditCode()])
    {
      var debit, credit := chart[op.DebitCode()], chart[op.CreditCode()];
      var guarded: set<AccountId> := {};
      if op.DebitCode().Normal() == Credit {
        guarded := guarded + {debit};
      }
      if op.CreditCode().Normal() == Debit {
        guarded := guarded + {credit};
      }
      var entries :=
        [Entry(debit, Debit, amount.amount, amount.currency, Available),
         Entry(credit, Credit, amount.amount, amount.currency, Available)];
      input := PostInput(Tx(c.key, op.Reason(), c.source, None, entries), guarded);
    }

    method CapturePayment(c: Context, amount: Money, providerFee: Money, platformFee: Money, hookOk: bool,
                          faults: seq<Option<EngineFault>>)
      returns (answer: Result<Answer, Refusal>)
      modifies ledger
      ensures answer == Err(NegativeFee) <==> providerFee.amount < 0 || platformFee.amount < 0
      ensures answer == Err(MixedCurrencies) <==>
                && providerFee.amount >= 0 && platformFee.amount >= 0
                && !(amount.currency == providerFee.currency == platformFee.currency)
      ensures answer == Err(FeesExceedAmount) <==>
                && providerFee.amount >= 0 && platformFee.amount >= 0
                && amount.currency == providerFee.currency == platformFee.currency
                && providerFee.amount + platformFee.amount >= amount.amount
      ensures var refusal := CaptureRefusal(amount, providerFee, platformFee);
              if refusal.Some? then answer == Err(refusal.value) && ledger.State() == old(ledger.State())
              else
                var ready := Provisioned(old(ledger.State()), c.merchant, amount.currency, CODES);
                var chart := ChartIds(ready.accounts, c.merchant, amount.currency);
                if Complete(chart) then
                  && answer.Ok?
                  && PostedWith(ready, ledger.State(), CaptureInput(c, amount, providerFee.amount, platformFee.amount, chart),
                                hookOk, faults, ledger.maxRetries, answer.value)
                else answer.Err? && answer.error.UnknownAccountCode? && ledger.State() == ready
    {
      var refusal := CaptureRefusal(amount, providerFee, platformFee);
      if refusal.Some? {
        return Err(refusal.value);
      }
      var ensured := EnsureChart(c.merchant, amount.currency);
      if ensured.Err? {
        return Err(UnknownAccountCode(ensured.error));
      }
      var input := CaptureInput(c, amount, providerFee.amount, platformFee.amount, ensured.value);
      var posted := ledger.PostTransaction(input, hookOk, faults);
      return Ok(posted);
    }

    method PostReconAdjustment(c: Context, amount: Money, debitDifferences: bool, hookOk: bool,
                               faults: seq<Option<EngineFault>>)
      returns (answer: Result<Answer, Refusal>)
      modifies ledger
      ensures answer == Err(AmountNotPositive) <==> amount.amount <= 0
      ensures amount.amount <= 0 ==> ledger.State() == old(ledger.State())
      ensures amount.amount > 0 ==>
                var ready := Provisioned(old(ledger.State()), c.merchant, amount.currency, RECON_CODES);
                var differences := AccountOf(ready.accounts, ReconDifferences, c.merchant, amount.currency);
                var suspense := AccountOf(ready.accounts, Suspense, c.merchant, amount.currency);
                if differences.Some? && suspense.Some? then
                  && answer.Ok?
                  && PostedWith(ready, ledger.State(), ReconInput(c, amount, debitDifferences, differences.value, suspense.value),
                                hookOk, faults, ledger.maxRetries, answer.value)
                else answer.Err? && answer.error.UnknownAccountCode? && ledger.State() == ready
    {
      if amount.amount <= 0 {
        return Err(AmountNotPositive);
      }
      var ensured := Ensure(c.merchant, amount.currency, RECON_CODES);
      assert RECON_CODES[0] == ReconDifferences && RECON_CODES[1] == Suspense;
      if ensured.Err? {
        return Err(UnknownAccountCode(ensured.error));
      }
      var input := ReconInput(c, amount, debitDifferences, ensured.value[ReconDifferences], ensured.value[Suspense]);
      var posted := ledger.PostTransaction(input, hookOk, faults);
      return Ok(posted);
    }
  }

  // ----------------------------------------------------- what a posting moves

  /** What a movement of v on one side adds to an account with the given normal side. */
  function Signed(side: Side, normal: Side, v: int): int {
    if side == normal then v else -v
  }

  lemma {:induction false} TwoEntriesMove(d: Entry, c: Entry, a: AccountId, normal: Side, bucket: Bucket)
    ensures Moved([d, c], a, normal, bucket) == Moves(a, normal, bucket)(d) + Moves(a, normal, bucket)(c)
  {
    assert [d, c] == [] + [d] + [c];
    SumPush([], d, Moves(a, normal, bucket));
    SumPush([d], c, Moves(a, normal, bucket));
  }

  /**
   * A two-legged posting that commits moves the available balance of its two accounts by
   * the amount, each in the direction of its own normal side, and moves nothing else.
   */
  lemma {:induction false} TwoLegsMove(db: Db, op: Operation, c: Context, amount: Money, debit: AccountId, credit: AccountId, hookOk: bool,
                    a: AccountId, bucket: Bucket)
    requires debit != credit
    requires Post(db, TwoLegs(op, c, amount, debit, credit), hookOk).1.Posted?
    ensures var after := Post(db, TwoLegs(op, c, amount, debit, credit), hookOk).0;
            Projected(after.balances, a).In(bucket) - Projected(db.balances, a).In(bucket) ==
            if bucket == Pending then 0
            else if a == debit then Signed(Debit, NormalOf(db.accounts, a), amount.amount)
            else if a == credit then Signed(Credit, NormalOf(db.accounts, a), amount.amount)
            else 0
  {
    var entries := TwoLegs(op, c, amount, debit, credit).tx.entries;
    PostedMoves(db, TwoLegs(op, c, amount, debit, credit), hookOk, a, bucket);
    TwoEntriesMove(entries[0], entries[1], a, NormalOf(db.accounts, a), bucket);
  }

  /**
   * An adjustment that commits moves recon.differences by the amount, up or down as it
   * recognises or reverts the difference, suspense by as much the other way, and nothing else.
   */
  lemma {:induction false} ReconMoves(db: Db, c: Context, amount: Money, debitDifferences: bool, differences: AccountId,
                   suspense: AccountId, hookOk: bool, a: AccountId, bucket: Bucket)
    requires differences != suspense
    requires NormalOf(db.accounts, differences) == Debit && NormalOf(db.accounts, suspense) == Debit
    requires Post(db, ReconInput(c, amount, debitDifferences, differences, suspense), hookOk).1.Posted?
    ensures var after := Post(db, ReconInput(c, amount, debitDifferences, differences, suspense), hookOk).0;
            var v := if debitDifferences then amount.amount else -amount.amount;
            Projected(after.balances, a).In(bucket) - Projected(db.balances, a).In(bucket) ==
            if bucket == Pending then 0 else if a == differences then v else if a == suspense then -v else 0
  {
    var input := ReconInput(c, amount, debitDifferences, differences, suspense);
    PostedMoves(db, input, hookOk, a, bucket);
    TwoEntriesMove(input.tx.entries[0], input.tx.entries[1], a, NormalOf(db.accounts, a), bucket);
  }

  /** What a capture adds to the account of a code. */
  function CaptureShare(code: Code, amount: int, providerFee: int, platformFee: int): int {
    match code
    case ProviderClearing => amount
    case ProviderFees => providerFee
    case ProviderPayable => providerFee
    case MerchantPending => amount - platformFee
    case PlatformFees => platformFee
    case _ => 0
  }

  lemma {:induction false} OneEntryMoves(e: Entry, a: AccountId, normal: Side, bucket: Bucket)
    ensures Moved([e], a, normal, bucket) == Moves(a, normal, bucket)(e)
  {
    assert [e] == [] + [e];
    SumPush([], e, Moves(a, normal, bucket));
  }

  /** The sum over a capture's entries, as if no fee were left out for being zero. */
  lemma {:induction false} CaptureSum(amount: Money, providerFee: int, platformFee: int, chart: map<Code, AccountId>,
                   a: AccountId, normal: Side, bucket: Bucket)
    requires Complete(chart) && providerFee >= 0 && platformFee >= 0
    ensures var f := Moves(a, normal, bucket);
            Moved(CaptureEntries(amount, providerFee, platformFee, chart), a, normal, bucket)
            == f(Entry(chart[ProviderClearing], Debit, amount.amount, amount.currency, Available))
               + f(Entry(chart[ProviderFees], Debit, providerFee, amount.currency, Available))
               + f(Entry(chart[ProviderPayable], Credit, providerFee, amount.currency, Available))
               + f(Entry(chart[MerchantPending], Credit, amount.amount - platformFee, amount.currency, Available))
               + f(Entry(chart[PlatformFees], Credit, platformFee, amount.currency, Available))
  {
    var f := Moves(a, normal, bucket);
    var sale := Entry(chart[ProviderClearing], Debit, amount.amount, amount.currency, Available);
    var cost := Entry(chart[ProviderFees], Debit, providerFee, amount.currency, Available);
    var owed := Entry(chart[ProviderPayable], Credit, providerFee, amount.currency, Available);
    var share := Entry(chart[MerchantPending], Credit, amount.amount - platformFee, amount.currency, Available);
    var fee := Entry(chart[PlatformFees], Credit, platformFee, amount.currency, Available);
    var costs := if providerFee > 0 then [cost, owed] else [];
    var fees := if platformFee > 0 then [fee] else [];
    OneEntryMoves(sale, a, normal, bucket);
    OneEntryMoves(share, a, normal, bucket);
    OneEntryMoves(fee, a, normal, bucket);
    TwoEntriesMove(cost, owed, a, normal, bucket);
    SumConcat([sale], costs, f);
    SumConcat([sale] + costs, [share], f);
    SumConcat([sale] + costs + [share], fees, f);
  }

  lemma {:induction false} PostedMoves(db: Db, input: PostInput, hookOk: bool, a: AccountId, bucket: Bucket)
    requires Post(db, input, hookOk).1.Posted?
    ensures Projected(Post(db, input, hookOk).0.balances, a).In(bucket)
         == Projected(db.balances, a).In(bucket) + Moved(input.tx.entries, a, NormalOf(db.accounts, a), bucket)
  {
    AccountIdsAscend(input.tx.entries);
    if a !in AccountIds(input.tx.entries) {
      UntouchedStays(input.tx.entries, a, NormalOf(db.accounts, a), bucket);
    }
  }

  // -------------------------------------------------- every run of the catalogue

  /** Different codes have different accounts. */
  ghost predicate Distinct(chart: map<Code, AccountId>) {
    forall c: Code, d: Code :: c in chart && d in chart && chart[c] == chart[d] ==> c == d
  }

  lemma {:induction false} ChartIsDistinct(accounts: seq<Account>, merchant: string, currency: Currency)
    ensures Distinct(ChartIds(accounts, merchant, currency))
  {
    var chart := ChartIds(accounts, merchant, currency);
    forall c: Code, d: Code | c in chart && d in chart && chart[c] == chart[d] ensures c == d {
      if c != d {
        CodesApart(accounts, c, d, merchant, currency);
      }
    }
  }

  lemma {:induction false} EntryShare(chart: map<Code, AccountId>, d: Code, side: Side, v: int, currency: Currency, code: Code)
    requires Complete(chart) && Distinct(chart) && side == d.Normal()
    ensures Moves(chart[code], code.Normal(), Available)(Entry(chart[d], side, v, currency, Available))
         == if d == code then v else 0
  {
  }

  lemma {:induction false} ShareOf(amount: Money, providerFee: int, platformFee: int, chart: map<Code, AccountId>, code: Code)
    requires Complete(chart) && Distinct(chart) && providerFee >= 0 && platformFee >= 0
    ensures Moved(CaptureEntries(amount, providerFee, platformFee, chart), chart[code], code.Normal(), Available)
         == CaptureShare(code, amount.amount, providerFee, platformFee)
  {
    CaptureSum(amount, providerFee, platformFee, chart, chart[code], code.Normal(), Available);
    EntryShare(chart, ProviderClearing, Debit, amount.amount, amount.currency, code);
    EntryShare(chart, ProviderFees, Debit, providerFee, amount.currency, code);
    EntryShare(chart, ProviderPayable, Credit, providerFee, amount.currency, code);
    EntryShare(chart, MerchantPending, Credit, amount.amount - platformFee, amount.currency, code);
    EntryShare(chart, PlatformFees, Credit, platformFee, amount.currency, code);
  }

  /**
   * A capture that commits adds to each account of the chart its share, on the account's
   * own normal side.
   */
  lemma {:induction false} CaptureMoves(db: Db, c: Context, amount: Money, providerFee: int, platformFee: int,
                     chart: map<Code, AccountId>, hookOk: bool, code: Code)
    requires Charted(db.accounts) && Complete(chart) && chart == ChartIds(db.accounts, c.merchant, amount.currency)
    requires providerFee >= 0 && platformFee >= 0
    requires Post(db, CaptureInput(c, amount, providerFee, platformFee, chart), hookOk).1.Posted?
    ensures var after := Post(db, CaptureInput(c, amount, providerFee, platformFee, chart), hookOk).0;
            Projected(after.balances, chart[code]).available
            == Projected(db.balances, chart[code]).available
               + CaptureShare(code, amount.amount, providerFee, platformFee)
  {
    assert code in chart;
    AccountIsCharted(db.accounts, code, c.merchant, amount.currency);
    ChartIsDistinct(db.accounts, c.merchant, amount.currency);
    PostedMoves(db, CaptureInput(c, amount, providerFee, platformFee, chart), hookOk, chart[code], Available);
    ShareOf(amount, providerFee, platformFee, chart, code);
  }

  /**
   * The calls that the platform makes. A chart is ensured in a transaction of its own,
   * so anything may happen before the posting that uses it.
   */
  datatype Call =
    | Ensure(merchant: string, currency: Currency, codes: seq<Code>)
    | Apply(op: Operation, c: Context, amount: Money, hookOk: bool)
    | Capture(c: Context, amount: Money, providerFee: Money, platformFee: Money, hookOk: bool)
    | Adjust(c: Context, amount: Money, debitDifferences: bool, hookOk: bool)
    | Reverse(tx: nat, key: string, source: Source, hookOk: bool)
    | Repair(account: AccountId)

  /** What a call does to the ledger in state db. */
  function Steps(db: Db, call: Call): seq<Step> {
    match call
    case Ensure(merchant, currency, codes) => Provisions(merchant, currency, codes)
    case Apply(op, c, amount, hookOk) =>
      var debit := AccountOf(db.accounts, op.DebitCode(), c.merchant, amount.currency);
      var credit := AccountOf(db.accounts, op.CreditCode(), c.merchant, amount.currency);
      if amount.amount <= 0 || debit.None? || credit.None? then []
      else [PostStep(TwoLegs(op, c, amount, debit.value, credit.value), hookOk)]
    case Capture(c, amount, providerFee, platformFee, hookOk) =>
      var chart := ChartIds(db.accounts, c.merchant, amount.currency);
      if CaptureRefusal(amount, providerFee, platformFee).Some? || !Complete(chart) then []
      else [PostStep(CaptureInput(c, amount, providerFee.amount, platformFee.amount, chart), hookOk)]
    case Adjust(c, amount, debitDifferences, hookOk) =>
      var differences := AccountOf(db.accounts, ReconDifferences, c.merchant, amount.currency);
      var suspense := AccountOf(db.accounts, Suspense, c.merchant, amount.currency);
      if amount.amount <= 0 || differences.None? || suspense.None? then []
      else [PostStep(ReconInput(c, amount, debitDifferences, differences.value, suspense.value), hookOk)]
    case Reverse(k, key, source, hookOk) => [ReverseStep(k, key, source, hookOk)]
    case Repair(a) => [Rebuild(a)]
  }

  /** The ledger calls of a run of the catalogue from an empty chart. */
  ghost function Script(calls: seq<Call>): seq<Step> {
    if calls == [] then []
    else
      var before := Script(calls[..|calls| - 1]);
      before + Steps(Run(before), calls[|calls| - 1])
  }

  ghost function Catalogue(calls: seq<Call>): Db {
    Run(Script(calls))
  }

  /** Every account is one of the chart, with the chart's normal side. */
  ghost predicate Charted(accounts: seq<Account>) {
    forall a :: 0 <= a < |accounts| ==> ChartedAccount(accounts[a])
  }

  predicate ChartedAccount(account: Account) {
    CodeOfName(account.name).Some? && account.normal == CodeOfName(account.name).value.Normal()
  }

  lemma {:induction false} AccountIsCharted(accounts: seq<Account>, code: Code, merchant: string, currency: Currency)
    requires Charted(accounts) && AccountOf(accounts, code, merchant, currency).Some?
    ensures var a := AccountOf(accounts, code, merchant, currency).value;
            a < |accounts| && accounts[a].normal == code.Normal() && CodeOfName(accounts[a].name) == Some(code)
  {
    NameTellsCode(code, merchant);
  }

  /** The guard set of twoLegged covers whatever protected account the posting decreases. */
  lemma {:induction false} TwoLegsCovered(accounts: seq<Account>, op: Operation, c: Context, amount: Money)
    requires Charted(accounts)
    requires AccountOf(accounts, op.DebitCode(), c.merchant, amount.currency).Some?
    requires AccountOf(accounts, op.CreditCode(), c.merchant, amount.currency).Some?
    ensures var debit := AccountOf(accounts, op.DebitCode(), c.merchant, amount.currency).value;
            var credit := AccountOf(accounts, op.CreditCode(), c.merchant, amount.currency).value;
            Covered(accounts, TwoLegs(op, c, amount, debit, credit))
  {
    AccountIsCharted(accounts, op.DebitCode(), c.merchant, amount.currency);
    AccountIsCharted(accounts, op.CreditCode(), c.merchant, amount.currency);
  }

  /** A capture decreases nothing, so it needs no guard. */
  lemma {:induction false} CaptureCovered(accounts: seq<Account>, c: Context, amount: Money, providerFee: int, platformFee: int)
    requires Charted(accounts) && Complete(ChartIds(accounts, c.merchant, amount.currency))
    ensures Covered(accounts, CaptureInput(c, amount, providerFee, platformFee, ChartIds(accounts, c.merchant, amount.currency)))
  {
    var chart := ChartIds(accounts, c.merchant, amount.currency);
    forall code: Code ensures NormalOf(accounts, chart[code]) == code.Normal() {
      assert code in chart;
      AccountIsCharted(accounts, code, c.merchant, amount.currency);
    }
    CaptureGrows(amount, providerFee, platformFee, chart);
    NothingDecreases(accounts, CaptureEntries(amount, providerFee, platformFee, chart), chart);
  }

  /** An entry on the normal side of its account's code. */
  predicate Grows(e: Entry, chart: map<Code, AccountId>)
    requires Complete(chart)
  {
    || (e.side == Debit && (e.account == chart[ProviderClearing] || e.account == chart[ProviderFees]))
    || (e.side == Credit && (e.account == chart[ProviderPayable] || e.account == chart[MerchantPending]))
    || (e.side == Credit && e.account == chart[PlatformFees])
  }

  lemma {:induction false} CaptureGrows(amount: Money, providerFee: int, platformFee: int, chart: map<Code, AccountId>)
    requires Complete(chart)
    ensures var entries := CaptureEntries(amount, providerFee, platformFee, chart);
            forall i :: 0 <= i < |entries| ==> Grows(entries[i], chart)
  {
  }

  lemma {:induction false} NothingDecreases(accounts: seq<Account>, entries: seq<Entry>, chart: map<Code, AccountId>)
    requires Complete(chart) && forall code: Code :: NormalOf(accounts, chart[code]) == code.Normal()
    requires forall i :: 0 <= i < |entries| ==> Grows(entries[i], chart)
    ensures Decreasing(accounts, entries) == {}
  {
    forall i | 0 <= i < |entries| ensures entries[i].side == NormalOf(accounts, entries[i].account) {
      assert Grows(entries[i], chart);
      assert ProviderClearing.Normal() == Debit && ProviderFees.Normal() == Debit;
      assert ProviderPayable.Normal() == Credit && MerchantPending.Normal() == Credit && PlatformFees.Normal() == Credit;
    }
  }

  /** An adjustment decreases only accounts that may go below zero. */
  lemma {:induction false} ReconCovered(accounts: seq<Account>, c: Context, amount: Money, debitDifferences: bool)
    requires Charted(accounts)
    requires AccountOf(accounts, ReconDifferences, c.merchant, amount.currency).Some?
    requires AccountOf(accounts, Suspense, c.merchant, amount.currency).Some?
    ensures var differences := AccountOf(accounts, ReconDifferences, c.merchant, amount.currency).value;
            var suspense := AccountOf(accounts, Suspense, c.merchant, amount.currency).value;
            Covered(accounts, ReconInput(c, amount, debitDifferences, differences, suspense))
  {
    AccountIsCharted(accounts, ReconDifferences, c.merchant, amount.currency);
    AccountIsCharted(accounts, Suspense, c.merchant, amount.currency);
  }

  ghost predicate Safe(db: Db) {
    Sound(db) && Charted(db.accounts) && NonNegative(db)
  }

  lemma {:induction false} PostKeepsSafe(db: Db, input: PostInput, hookOk: bool)
    requires Safe(db) && Covered(db.accounts, input) && input.tx.reverses.None?
    ensures Safe(Next(db, PostStep(input, hookOk)))
  {
    NextKeepsSound(db, PostStep(input, hookOk));
    CoveredKeepsNonNegative(db, input, hookOk);
  }

  lemma {:induction false} ReverseKeepsSafe(db: Db, k: nat, key: string, source: Source, hookOk: bool)
    requires Safe(db)
    ensures Safe(Next(db, ReverseStep(k, key, source, hookOk)))
  {
    NextKeepsSound(db, ReverseStep(k, key, source, hookOk));
    ReverseKeepsNonNegative(db, k, key, source, hookOk);
    StepKeepsAccounts(db, ReverseStep(k, key, source, hookOk));
  }

  lemma {:induction false} StepKeepsAccounts(db: Db, step: Step)
    requires step.ReverseStep? || step.PostStep? || step.Rebuild?
    ensures Next(db, step).accounts == db.accounts
  {
  }

  lemma {:induction false} ReverseKeepsNonNegative(db: Db, k: nat, key: string, source: Source, hookOk: bool)
    requires NonNegative(db)
    ensures NonNegative(Next(db, ReverseStep(k, key, source, hookOk)))
  {
    if k < |db.txs| {
      ReversalIsCovered(db, k, key, source);
      CoveredKeepsNonNegative(db, Reversal(db, k, key, source), hookOk);
    }
  }

  lemma {:induction false} RepairKeepsSafe(db: Db, a: AccountId)
    requires Safe(db)
    ensures Safe(Next(db, Rebuild(a)))
  {
    NextKeepsSound(db, Rebuild(a));
    var after := Next(db, Rebuild(a));
    forall x: AccountId, bucket | x < |db.accounts| && ProtectedName(db.accounts[x].name)
      ensures Projected(after.balances, x).In(bucket) >= 0
    {
      assert Projected(db.balances, x).In(bucket) >= 0;
      assert Projected(db.balances, x).In(bucket) == Recomputed(db, x, bucket);
    }
  }

  lemma {:induction false} ProvisionKeepsSafe(db: Db, code: Code, merchant: string, currency: Currency)
    requires Safe(db)
    ensures Safe(Next(db, ProvisionStep(code, merchant, currency)))
  {
    var step := ProvisionStep(code, merchant, currency);
    NextKeepsSound(db, step);
    NameTellsCode(code, merchant);
    ProvisionOpens(db, step);
  }

  lemma {:induction false} ProvisionOpens(db: Db, step: Step)
    requires step.Provision? && Charted(db.accounts) && NonNegative(db)
    requires ChartedAccount(Account(step.name, step.currency, step.normal, false))
    ensures Charted(Next(db, step).accounts) && NonNegative(Next(db, step))
  {
    var after := Next(db, step);
    if Find(db.accounts, step.name, step.currency).None? {
      assert after == Next(db, Open(step.name, step.currency, step.normal, true));
    }
    forall x: AccountId, bucket | x < |after.accounts| && ProtectedName(after.accounts[x].name)
      ensures Projected(after.balances, x).In(bucket) >= 0
    {
      if x < |db.accounts| {
        assert Projected(db.balances, x).In(bucket) >= 0;
      }
    }
  }

  lemma {:induction false} ProvisionsKeepSafe(db: Db, merchant: string, currency: Currency, codes: seq<Code>)
    requires Safe(db)
    ensures Safe(Provisioned(db, merchant, currency, codes))
  {
    if codes == [] {
      assert Provisioned(db, merchant, currency, codes) == db;
    } else {
      var n := |codes| - 1;
      ProvisionsKeepSafe(db, merchant, currency, codes[..n]);
      ProvisionedPush(db, merchant, currency, codes[..n], codes[n]);
      assert codes == codes[..n] + [codes[n]];
      ProvisionKeepsSafe(Provisioned(db, merchant, currency, codes[..n]), codes[n], merchant, currency);
    }
  }

  lemma {:induction false} CallKeepsSafe(db: Db, call: Call)
    requires Safe(db)
    ensures Safe(Extend(db, Steps(db, call)))
  {
    var steps := Steps(db, call);
    assert |steps| == 1 ==> Extend(db, steps) == Next(db, steps[0]) by {
      assert |steps| == 1 ==> steps[..0] == [];
    }
    match call
    case Ensure(merchant, currency, codes) => ProvisionsKeepSafe(db, merchant, currency, codes);
    case Apply(op, c, amount, hookOk) =>
      if steps != [] {
        TwoLegsCovered(db.accounts, op, c, amount);
        PostKeepsSafe(db, steps[0].input, hookOk);
      }
    case Capture(c, amount, providerFee, platformFee, hookOk) =>
      if steps != [] {
        CaptureCovered(db.accounts, c, amount, providerFee.amount, platformFee.amount);
        PostKeepsSafe(db, steps[0].input, hookOk);
      }
    case Adjust(c, amount, debitDifferences, hookOk) =>
      if steps != [] {
        ReconCovered(db.accounts, c, amount, debitDifferences);
        PostKeepsSafe(db, steps[0].input, hookOk);
      }
    case Reverse(k, key, source, hookOk) => ReverseKeepsSafe(db, k, key, source, hookOk);
    case Repair(a) => RepairKeepsSafe(db, a);
  }

  lemma {:induction false} CatalogueIsSafe(calls: seq<Call>)
    ensures Safe(Catalogue(calls))
  {
    if calls == [] {
      RunsAreSound([]);
    } else {
      var before := Script(calls[..|calls| - 1]);
      CatalogueIsSafe(calls[..|calls| - 1]);
      CallKeepsSafe(Run(before), calls[|calls| - 1]);
      ExtendTwice(EMPTY, before, Steps(Run(before), calls[|calls| - 1]));
    }
  }

  /**
   * From an empty chart, under every run of captures, two-legged operations,
   * adjustments, reversals and repairs: no account other than suspense and
   * recon.differences is ever below zero, and in every currency the debit-normal
   * balances sum to the credit-normal ones.
   */
  lemma {:induction false} BooksBalanceAndStayNonNegative(calls: seq<Call>, c: Currency, a: AccountId, bucket: Bucket)
    ensures var db := Catalogue(calls);
            && SideTotal(db, c, Debit) == SideTotal(db, c, Credit)
            && (a < |db.accounts| ==>
                  && CodeOfName(db.accounts[a].name).Some?
                  && (CodeOfName(db.accounts[a].name).value.Kind() != Transitory ==>
                        Projected(db.balances, a).In(bucket) >= 0))
  {
    CatalogueIsSafe(calls);
    TrialBalance(Script(calls), c);
    var db := Catalogue(calls);
    if a < |db.accounts| {
      assert ChartedAccount(db.accounts[a]);
    }
  }
}
