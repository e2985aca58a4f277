/**
 * The signature by which a replay compares entries: entriesSignature
 * (packages/ledger/src/service.ts). Two lists of entries have the same signature exactly
 * when they are equal as multisets.
 */
module EntrySignature {
  import opened Prelude
  import opened Money
  import opened Chart
  import opened Ledger
  import opened CanonicalJson
  import opened DecimalText

  function UnitOf(c: char): Unit {
    if c as int < 0x10000 then c as int else 0
  }

  function Units(s: string): Text {
    seq(|s|, i requires 0 <= i < |s| => UnitOf(s[i]))
  }

  predicate Basic(s: string) {
    forall i :: 0 <= i < |s| ==> s[i] as int < 0x10000
  }

  lemma {:induction false} UnitsDistinct(s: string, t: string)
    requires Basic(s) && Basic(t) && Units(s) == Units(t)
    ensures s == t
  {
    assert |Units(s)| == |s| && |Units(t)| == |t|;
    forall i | 0 <= i < |s| ensures s[i] == t[i] {
      assert Units(s)[i] == UnitOf(s[i]) && Units(t)[i] == UnitOf(t[i]);
    }
  }

  function SideText(side: Side): string {
    if side == Debit then "debit" else "credit"
  }

  function BucketText(bucket: Bucket): string {
    if bucket == Available then "available" else "pending"
  }

  function CurrencyText(c: Currency): string {
    match c
    case USD => "USD" case EUR => "EUR" case GBP => "GBP" case MXN => "MXN" case BRL => "BRL"
    case COP => "COP" case ARS => "ARS" case PEN => "PEN" case CLP => "CLP" case JPY => "JPY"
  }

  /** BigInt.prototype.toString. */
  function IntText(n: int): string {
    if n < 0 then "-" + Numeral(-n) else Numeral(n)
  }

  lemma {:induction false} IntTextDistinct(m: int, n: int)
    requires IntText(m) == IntText(n)
    ensures m == n
  {
    ParseNumeral(Abs(m));
    ParseNumeral(Abs(n));
    assert m < 0 ==> IntText(m)[0] == '-' && IntText(m)[1..] == Numeral(-m);
    assert n < 0 ==> IntText(n)[0] == '-' && IntText(n)[1..] == Numeral(-n);
  }

  lemma {:induction false} CurrencyTextDistinct(c: Currency, d: Currency)
    requires CurrencyText(c) == CurrencyText(d)
    ensures c == d
  {
    assert CurrencyText(c)[..2] == CurrencyText(d)[..2];
    assert CurrencyText(c)[0] == CurrencyText(d)[0] && CurrencyText(c)[1] == CurrencyText(d)[1];
  }

  lemma {:induction false} SmallTextsDistinct(s: Side, t: Side, b: Bucket, d: Bucket)
    ensures SideText(s) == SideText(t) ==> s == t
    ensures BucketText(b) == BucketText(d) ==> b == d
  {
    assert SideText(s)[0] == 'd' <==> s == Debit;
    assert BucketText(b)[0] == 'a' <==> b == Available;
    assert SideText(t)[0] == 'd' <==> t == Debit;
    assert BucketText(d)[0] == 'a' <==> d == Available;
  }

  function Field(s: string): Json {
    Str(Units(s))
  }

  /** The positional tuple of an entry. */
  function Tuple(e: Entry): Json {
    Arr([Field(Numeral(e.account)), Field(SideText(e.side)), Field(IntText(e.amount)),
         Field(CurrencyText(e.currency)), Field(BucketText(e.bucket))])
  }

  function TupleText(e: Entry): Text {
    Render(Tuple(e))
  }

  lemma {:induction false} AllBasic(e: Entry)
    ensures Basic(Numeral(e.account)) && Basic(IntText(e.amount))
    ensures Basic(SideText(e.side)) && Basic(CurrencyText(e.currency)) && Basic(BucketText(e.bucket))
  {
  }

  lemma {:induction false} SameFields(d: Entry, e: Entry)
    requires Same(Tuple(d), Tuple(e))
    ensures Numeral(d.account) == Numeral(e.account) && SideText(d.side) == SideText(e.side)
    ensures IntText(d.amount) == IntText(e.amount) && CurrencyText(d.currency) == CurrencyText(e.currency)
    ensures BucketText(d.bucket) == BucketText(e.bucket)
  {
    AllBasic(d);
    AllBasic(e);
    var p, q := Tuple(d).items, Tuple(e).items;
    assert Same(p[0], q[0]) && Same(p[1], q[1]) && Same(p[2], q[2]) && Same(p[3], q[3]) && Same(p[4], q[4]);
    UnitsDistinct(Numeral(d.account), Numeral(e.account));
    UnitsDistinct(SideText(d.side), SideText(e.side));
    UnitsDistinct(IntText(d.amount), IntText(e.amount));
    UnitsDistinct(CurrencyText(d.currency), CurrencyText(e.currency));
    UnitsDistinct(BucketText(d.bucket), BucketText(e.bucket));
  }

  /** A tuple determines its entry. */
  lemma {:induction false} TupleDistinct(d: Entry, e: Entry)
    requires Same(Tuple(d), Tuple(e))
    ensures d == e
  {
    SameFields(d, e);
    ParseNumeral(d.account);
    ParseNumeral(e.account);
    IntTextDistinct(d.amount, e.amount);
    CurrencyTextDistinct(d.currency, e.currency);
    SmallTextsDistinct(d.side, e.side, d.bucket, e.bucket);
  }

  lemma {:induction false} TupleTextDistinct(d: Entry, e: Entry)
    requires TupleText(d) == TupleText(e)
    ensures d == e
  {
    TextIsCanonical(Tuple(d), Tuple(e));
    TupleDistinct(d, e);
  }

  // ---------------------------------------------------------- the sorting

  function InsertEntry(e: Entry, sorted: seq<Entry>): seq<Entry> {
    if sorted == [] then [e]
    else if !Less(TupleText(sorted[0]), TupleText(e)) then [e] + sorted
    else [sorted[0]] + InsertEntry(e, sorted[1..])
  }

  /** The entries in the order of the text of their tuples. */
  function SortEntries(entries: seq<Entry>): seq<Entry> {
    if entries == [] then [] else InsertEntry(entries[0], SortEntries(entries[1..]))
  }

  function Tuples(entries: seq<Entry>): seq<Json> {
    seq(|entries|, i requires 0 <= i < |entries| => Tuple(entries[i]))
  }

  function Signature(entries: seq<Entry>): Text {
    Render(Arr(Tuples(SortEntries(entries))))
  }

  ghost predicate NotBelow(e: Entry, d: Entry) {
    !Less(TupleText(e), TupleText(d))
  }

  ghost predicate Ordered(entries: seq<Entry>) {
    forall i, j :: 0 <= i < j < |entries| ==> NotBelow(entries[j], entries[i])
  }

  lemma {:induction false} NotBelowTransitive(a: Entry, b: Entry, c: Entry)
    requires NotBelow(b, a) && NotBelow(c, b)
    ensures NotBelow(c, a)
  {
    var x, y, z := TupleText(a), TupleText(b), TupleText(c);
    LessTotal(x, y);
    LessTotal(y, z);
    LessTotal(z, x);
    if Less(z, x) {
      if x == y || y == z {
        assert false;
      } else {
        LessTransitive(x, y, z);
        assert false;
      }
    }
  }

  lemma {:induction false} InsertEntryOrders(e: Entry, sorted: seq<Entry>)
    requires Ordered(sorted)
    ensures Ordered(InsertEntry(e, sorted))
    ensures multiset(InsertEntry(e, sorted)) == multiset(sorted) + multiset{e}
  {
    if sorted != [] {
      var first, rest := sorted[0], sorted[1..];
      assert sorted == [first] + rest;
      if NotBelow(first, e) {
        forall i | 0 <= i < |sorted| ensures NotBelow(sorted[i], e) {
          if i > 0 {
            NotBelowTransitive(e, first, sorted[i]);
          }
        }
        OrderedPush(e, sorted);
      } else {
        InsertEntryOrders(e, rest);
        LessTotal(TupleText(first), TupleText(e));
        HeadNotAbove(e, sorted, InsertEntry(e, rest));
        OrderedPush(first, InsertEntry(e, rest));
      }
    }
  }

  lemma {:induction false} OrderedPush(first: Entry, tail: seq<Entry>)
    requires Ordered(tail) && forall i :: 0 <= i < |tail| ==> NotBelow(tail[i], first)
    ensures Ordered([first] + tail) && multiset([first] + tail) == multiset(tail) + multiset{first}
  {
  }

  lemma {:induction false} HeadNotAbove(e: Entry, sorted: seq<Entry>, tail: seq<Entry>)
    requires sorted != [] && Ordered(sorted) && NotBelow(e, sorted[0])
    requires multiset(tail) == multiset(sorted[1..]) + multiset{e}
    ensures forall i :: 0 <= i < |tail| ==> NotBelow(tail[i], sorted[0])
  {
    forall i | 0 <= i < |tail| ensures NotBelow(tail[i], sorted[0]) {
      assert tail[i] in multiset(tail);
      if tail[i] != e {
        assert tail[i] in multiset(sorted[1..]);
        var k :| 0 <= k < |sorted[1..]| && sorted[1..][k] == tail[i];
        assert NotBelow(sorted[k + 1], sorted[0]);
      }
    }
  }

  lemma {:induction false} SortOrders(entries: seq<Entry>)
    ensures Ordered(SortEntries(entries)) && multiset(SortEntries(entries)) == multiset(entries)
  {
    if entries != [] {
      SortOrders(entries[1..]);
      InsertEntryOrders(entries[0], SortEntries(entries[1..]));
      assert entries == [entries[0]] + entries[1..];
    }
  }

  lemma {:induction false} FirstsAgree(p: seq<Entry>, q: seq<Entry>)
    requires Ordered(p) && Ordered(q) && multiset(p) == multiset(q) && p != [] && q != []
    ensures p[0] == q[0]
  {
    assert p[0] in multiset(q) && q[0] in multiset(p);
    var i :| 0 <= i < |q| && q[i] == p[0];
    var j :| 0 <= j < |p| && p[j] == q[0];
    if i > 0 && j > 0 {
      assert NotBelow(q[i], q[0]) && NotBelow(p[j], p[0]);
      LessTotal(TupleText(p[0]), TupleText(q[0]));
      TupleTextDistinct(p[0], q[0]);
    }
  }

  lemma {:induction false} OrderedUnique(p: seq<Entry>, q: seq<Entry>)
    requires Ordered(p) && Ordered(q) && multiset(p) == multiset(q)
    ensures p == q
  {
    assert |p| == |multiset(p)| == |multiset(q)| == |q|;
    if p != [] {
      FirstsAgree(p, q);
      RestsAlike(p, q);
      OrderedUnique(p[1..], q[1..]);
      assert p == [p[0]] + p[1..] && q == [q[0]] + q[1..];
    }
  }

  lemma {:induction false} RestsAlike(p: seq<Entry>, q: seq<Entry>)
    requires p != [] && q != [] && p[0] == q[0] && Ordered(p) && Ordered(q) && multiset(p) == multiset(q)
    ensures Ordered(p[1..]) && Ordered(q[1..]) && multiset(p[1..]) == multiset(q[1..])
  {
    WithoutFirst(p);
    WithoutFirst(q);
  }

  lemma {:induction false} WithoutFirst(p: seq<Entry>)
    requires p != [] && Ordered(p)
    ensures Ordered(p[1..]) && multiset(p[1..]) == multiset(p) - multiset{p[0]}
  {
    assert p == [p[0]] + p[1..];
    forall i, j | 0 <= i < j < |p[1..]| ensures NotBelow(p[1..][j], p[1..][i]) {
      assert NotBelow(p[j + 1], p[i + 1]);
    }
  }

  lemma {:induction false} TuplesDistinct(p: seq<Entry>, q: seq<Entry>)
    requires Same(Arr(Tuples(p)), Arr(Tuples(q)))
    ensures p == q
  {
    var s, t := Tuples(p), Tuples(q);
    assert |s| == |p| && |t| == |q|;
    forall i | 0 <= i < |p| ensures p[i] == q[i] {
      assert Same(s[i], t[i]);
      TupleDistinct(p[i], q[i]);
    }
  }

  lemma {:induction false} TuplesParsed(p: seq<Entry>)
    ensures Parsed(Arr(Tuples(p)))
  {
    var s := Tuples(p);
    forall i | 0 <= i < |s| ensures Parsed(s[i]) {
      assert s[i] == Tuple(p[i]);
    }
  }

  /** Equal signatures mean equal multisets of entries, and conversely. */
  lemma {:induction false} SignatureIsMultiset(p: seq<Entry>, q: seq<Entry>)
    ensures Signature(p) == Signature(q) <==> multiset(p) == multiset(q)
  {
    SortOrders(p);
    SortOrders(q);
    if Signature(p) == Signature(q) {
      TuplesParsed(SortEntries(p));
      TuplesParsed(SortEntries(q));
      TextIsCanonical(Arr(Tuples(SortEntries(p))), Arr(Tuples(SortEntries(q))));
      TuplesDistinct(SortEntries(p), SortEntries(q));
    }
    if multiset(p) == multiset(q) {
      OrderedUnique(SortEntries(p), SortEntries(q));
    }
  }
}
