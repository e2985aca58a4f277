/**
 * The ledger as the lifecycles see it: the log of postings of the catalogue, with
 * balances that are sums over the log. Refinement (Refinement.dfy) shows that the
 * tables of the ledger behave in this way.
 */
module Books {
  import opened Prelude
  import opened Money
  import opened Chart
  import opened Posting

  /** The idempotency key of a posting, by what it is for. */
  datatype Key =
    | AttemptKey(attempt: nat)
    | ResourceKey(op: Operation, id: nat)
    | DirectKey(name: string)

  /** The ledger takes keys of 8 to 200 characters. */
  predicate NameFits(name: string) {
    8 <= |"direct:" + name| <= 200
  }

  datatype Form = Charge(fee: int) | Legs(op: Operation)

  datatype Move = Move(key: Key, form: Form, merchant: string, currency: Currency, amount: int)

  /** An account of the chart; the merchant of a platform account is immaterial. */
  datatype Acct = Acct(code: Code, merchant: string, currency: Currency)

  datatype Answer = Posted | Replayed | Conflict | Insufficient

  /** The account of a code that a posting for this merchant and currency uses. */
  predicate Uses(p: Move, code: Code, x: Acct) {
    x.code == code && x.currency == p.currency && (code.Scope() == MerchantScope ==> x.merchant == p.merchant)
  }

  /** What a posting adds to an account, on the account's own normal side. */
  function Effect(p: Move, x: Acct): int {
    match p.form
    case Charge(fee) =>
      if Uses(p, ProviderClearing, x) then p.amount
      else if Uses(p, MerchantPending, x) then p.amount - fee
      else if Uses(p, PlatformFees, x) then fee
      else 0
    case Legs(op) =>
      if Uses(p, op.DebitCode(), x) then Signed(Debit, x.code.Normal(), p.amount)
      else if Uses(p, op.CreditCode(), x) then Signed(Credit, x.code.Normal(), p.amount)
      else 0
  }

  function EffectOn(x: Acct): Move -> int {
    (p: Move) => Effect(p, x)
  }

  function Bal(log: seq<Move>, x: Acct): int {
    Sum(log, EffectOn(x))
  }

  lemma {:induction false} BalPush(log: seq<Move>, p: Move, x: Acct)
    ensures Bal(log + [p], x) == Bal(log, x) + Effect(p, x)
  {
    SumPush(log, p, EffectOn(x));
  }

  function FindMove(log: seq<Move>, key: Key): (p: Option<Move>)
    ensures p.Some? ==> p.value.key == key && p.value in log
  {
    if log == [] then None
    else if log[|log| - 1].key == key then Some(log[|log| - 1])
    else FindMove(log[..|log| - 1], key)
  }

  predicate Has(log: seq<Move>, key: Key) {
    FindMove(log, key).Some?
  }

  lemma {:induction false} HasPush(log: seq<Move>, p: Move, key: Key)
    ensures Has(log + [p], key) <==> Has(log, key) || p.key == key
  {
    assert (log + [p])[..|log|] == log;
  }

  lemma {:induction false} HasIsIn(log: seq<Move>, key: Key)
    ensures Has(log, key) <==> exists i :: 0 <= i < |log| && log[i].key == key
  {
    if log != [] {
      var n := |log| - 1;
      HasIsIn(log[..n], key);
      if Has(log[..n], key) {
        var i :| 0 <= i < |log[..n]| && log[..n][i].key == key;
        assert log[i].key == key;
      }
      if exists i :: 0 <= i < n && log[i].key == key {
        var i :| 0 <= i < n && log[i].key == key;
        assert log[..n][i].key == key;
      }
    }
  }

  /** The guard of a two-legged posting: what it decreases must not end below zero. */
  predicate Short(log: seq<Move>, p: Move) {
    p.form.Legs? &&
    var op := p.form.op;
    || (op.DebitCode().Normal() == Credit && Bal(log, Acct(op.DebitCode(), p.merchant, p.currency)) < p.amount)
    || (op.CreditCode().Normal() == Debit && Bal(log, Acct(op.CreditCode(), p.merchant, p.currency)) < p.amount)
  }

  function Ask(log: seq<Move>, p: Move): Answer {
    var known := FindMove(log, p.key);
    if known == Some(p) then Replayed
    else if known.Some? then Conflict
    else if Short(log, p) then Insufficient
    else Posted
  }
}
