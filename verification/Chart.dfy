/** The chart of accounts (packages/ledger/src/chart-of-accounts.ts). */
module Chart {
  import opened Prelude

  datatype Side = Debit | Credit {
    function Flip(): Side {
      if Debit? then Credit else Debit
    }
  }

  datatype Scope = PlatformScope | MerchantScope

  datatype Kind = Asset | Liability | Income | Expense | Transitory

  datatype Code =
    | ProviderClearing | ProviderReceivable | ProviderPayable | ProviderFees
    | PlatformFees | PlatformCash | PayoutInTransit | Suspense | ReconDifferences
    | MerchantPending | MerchantAvailable | MerchantReserve | RefundLiability | DisputeReserve
  {
    function Text(): string {
      match this
      case ProviderClearing => "provider.clearing"
      case ProviderReceivable => "provider.receivable"
      case ProviderPayable => "provider.payable"
      case ProviderFees => "provider.fees"
      case PlatformFees => "platform.fees"
      case PlatformCash => "platform.cash"
      case PayoutInTransit => "payout.in_transit"
      case Suspense => "suspense"
      case ReconDifferences => "recon.differences"
      case MerchantPending => "merchant.pending"
      case MerchantAvailable => "merchant.available"
      case MerchantReserve => "merchant.reserve"
      case RefundLiability => "refund.liability"
      case DisputeReserve => "dispute.reserve"
    }

    function Scope(): Scope {
      if MerchantPending? || MerchantAvailable? || MerchantReserve? || RefundLiability? || DisputeReserve?
      then MerchantScope else PlatformScope
    }

    function Kind(): Kind {
      match this
      case ProviderClearing => Asset
      case ProviderReceivable => Asset
      case ProviderFees => Expense
      case PlatformFees => Income
      case PlatformCash => Asset
      case Suspense => Transitory
      case ReconDifferences => Transitory
      case _ => Liability
    }

    function Normal(): Side {
      match Kind()
      case Asset => Debit
      case Expense => Debit
      case Transitory => Debit
      case Liability => Credit
      case Income => Credit
    }

    /** The accounts that must never go below zero. */
    predicate Protected() {
      Kind() != Transitory
    }
  }

  const CODES: seq<Code> :=
    [ProviderClearing, ProviderReceivable, ProviderPayable, ProviderFees, PlatformFees, PlatformCash,
     PayoutInTransit, Suspense, ReconDifferences, MerchantPending, MerchantAvailable, MerchantReserve,
     RefundLiability, DisputeReserve]

  lemma {:induction false} CodesAreAll(code: Code)
    ensures code in CODES
  {
    match code
    case ProviderClearing => assert CODES[0] == code;
    case ProviderReceivable => assert CODES[1] == code;
    case ProviderPayable => assert CODES[2] == code;
    case ProviderFees => assert CODES[3] == code;
    case PlatformFees => assert CODES[4] == code;
    case PlatformCash => assert CODES[5] == code;
    case PayoutInTransit => assert CODES[6] == code;
    case Suspense => assert CODES[7] == code;
    case ReconDifferences => assert CODES[8] == code;
    case MerchantPending => assert CODES[9] == code;
    case MerchantAvailable => assert CODES[10] == code;
    case MerchantReserve => assert CODES[11] == code;
    case RefundLiability => assert CODES[12] == code;
    case DisputeReserve => assert CODES[13] == code;
  }

  /** The physical name of an account. */
  function AccountName(code: Code, merchant: string): string {
    if code.Scope() == MerchantScope then code.Text() + [':'] + merchant else code.Text()
  }

  /** name.split(':')[0]. */
  function Head(name: string): string {
    if name == "" || name[0] == ':' then "" else [name[0]] + Head(name[1..])
  }

  /** What follows the first colon. */
  function Tail(name: string): string {
    if |Head(name)| < |name| then name[|Head(name)| + 1..] else ""
  }

  /** The entry of the chart with the given text, among `codes`. */
  function Lookup(text: string, codes: seq<Code>): Option<Code> {
    if codes == [] then None
    else if codes[0].Text() == text then Some(codes[0])
    else Lookup(text, codes[1..])
  }

  /** The code that an account name begins with. */
  function CodeOfName(name: string): Option<Code> {
    Lookup(Head(name), CODES)
  }

  predicate NoColon(s: string) {
    forall i :: 0 <= i < |s| ==> s[i] != ':'
  }

  lemma {:induction false} TextsHaveNoColon(code: Code)
    ensures NoColon(code.Text()) && code.Text() != ""
  {
    if code.Scope() == MerchantScope {
      MerchantTextsHaveNoColon(code);
    } else {
      PlatformTextsHaveNoColon(code);
    }
  }

  lemma {:induction false} MerchantTextsHaveNoColon(code: Code)
    requires code.Scope() == MerchantScope
    ensures NoColon(code.Text()) && code.Text() != ""
  {
  }

  lemma {:induction false} PlatformTextsHaveNoColon(code: Code)
    requires code.Scope() == PlatformScope
    ensures NoColon(code.Text()) && code.Text() != ""
  {
  }

  lemma {:induction false} HeadOfText(text: string, rest: string)
    requires NoColon(text) && (rest == "" || rest[0] == ':')
    ensures Head(text + rest) == text
  {
    if text == "" {
      assert text + rest == rest;
    } else {
      assert (text + rest)[1..] == text[1..] + rest;
      HeadOfText(text[1..], rest);
    }
  }

  /** A number that tells the texts of the chart apart. */
  function Mark(text: string): int {
    |text| * 100 + (if |text| > 1 then text[1] as int - 'a' as int else 0)
    + if |text| > 9 && text[9] == 'f' then 50 else if |text| > 9 && text[9] == 'p' then 60 else if |text| > 9 && text[9] == 'c' then 70 else 0
  }

  lemma {:induction false} LookupFinds(code: Code, codes: seq<Code>)
    requires code in codes
    ensures Lookup(code.Text(), codes) == Some(code)
  {
    if codes[0].Text() == code.Text() {
      TextsDistinct(code, codes[0]);
    } else {
      LookupFinds(code, codes[1..]);
    }
  }

  lemma {:induction false} TextsDistinct(c: Code, d: Code)
    requires c.Text() == d.Text()
    ensures c == d
  {
    assert Mark(c.Text()) == Mark(d.Text());
  }

  /**
   * The code can be recovered from the name of an account whatever its merchant is
   * called, and the merchant from the name of a merchant account.
   */
  lemma {:induction false} NameTellsCode(code: Code, merchant: string)
    ensures CodeOfName(AccountName(code, merchant)) == Some(code)
    ensures code.Scope() == MerchantScope ==> Tail(AccountName(code, merchant)) == merchant
  {
    HeadOfName(code, merchant);
    TextTellsCode(code);
  }

  lemma {:induction false} TextTellsCode(code: Code)
    ensures Lookup(code.Text(), CODES) == Some(code)
  {
    CodesAreAll(code);
    LookupFinds(code, CODES);
  }

  lemma {:induction false} HeadOfName(code: Code, merchant: string)
    ensures Head(AccountName(code, merchant)) == code.Text()
    ensures code.Scope() == MerchantScope ==> Tail(AccountName(code, merchant)) == merchant
  {
    TextsHaveNoColon(code);
    HeadAndTail(code.Text(), merchant);
  }

  lemma {:induction false} HeadAndTail(text: string, merchant: string)
    requires NoColon(text)
    ensures Head(text) == text
    ensures Head(text + [':'] + merchant) == text && Tail(text + [':'] + merchant) == merchant
  {
    assert text + [':'] + merchant == text + ([':'] + merchant) && text + "" == text;
    HeadOfText(text, [':'] + merchant);
    HeadOfText(text, "");
  }

  /** Two accounts share a name only when they are the same account of the chart. */
  lemma {:induction false} NamesDistinct(c: Code, m: string, d: Code, n: string)
    requires AccountName(c, m) == AccountName(d, n)
    ensures c == d && (c.Scope() == MerchantScope ==> m == n)
  {
    NameTellsCode(c, m);
    NameTellsCode(d, n);
  }
}
