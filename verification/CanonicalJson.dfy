/**
 * The canonical JSON text behind request hashes: stableStringify
 * (packages/idempotency/src/index.ts). Strings are sequences of UTF-16 code units.
 */
module CanonicalJson {
  import opened Prelude

  type Unit = u: int | 0 <= u < 0x10000

  type Text = seq<Unit>

  /**
   * A value read by JSON.parse. A finite number is given by the text that the
   * language prints for it; a literal too large for a double reads as an infinity.
   */
  datatype Json =
    | Null
    | Bool(b: bool)
    | Num(text: Text)
    | Infinite(negative: bool)
    | Str(s: Text)
    | Arr(items: seq<Json>)
    | Obj(fields: seq<Field>)

  datatype Field = Field(key: Text, value: Json)

  const QUOTE: Unit := 0x22
  const COMMA: Unit := 0x2C
  const COLON: Unit := 0x3A
  const OPEN_BRACKET: Unit := 0x5B
  const BACKSLASH: Unit := 0x5C
  const CLOSE_BRACKET: Unit := 0x5D
  const OPEN_BRACE: Unit := 0x7B
  const CLOSE_BRACE: Unit := 0x7D
  const NULL_TEXT: Text := [0x6E, 0x75, 0x6C, 0x6C]
  const TRUE_TEXT: Text := [0x74, 0x72, 0x75, 0x65]
  const FALSE_TEXT: Text := [0x66, 0x61, 0x6C, 0x73, 0x65]

  // ----------------------------------------------------------- key order

  /** Comparison of strings by code units. */
  predicate Less(a: Text, b: Text) {
    b != [] && (a == [] || a[0] < b[0] || (a[0] == b[0] && Less(a[1..], b[1..])))
  }

  lemma {:induction false} LessTotal(a: Text, b: Text)
    ensures Less(a, b) || a == b || Less(b, a)
    ensures !(Less(a, b) && Less(b, a)) && !Less(a, a)
  {
    if a != [] {
      if b != [] {
        LessTotal(a[1..], b[1..]);
        if a[0] == b[0] && a[1..] == b[1..] {
          assert a == [a[0]] + a[1..] == b;
        }
      }
      LessTotal(a[1..], a[1..]);
    }
  }

  lemma {:induction false} LessTransitive(a: Text, b: Text, c: Text)
    requires Less(a, b) && Less(b, c)
    ensures Less(a, c)
  {
    if a != [] && a[0] == b[0] && b[0] == c[0] {
      LessTransitive(a[1..], b[1..], c[1..]);
    }
  }

  ghost predicate Increasing(fields: seq<Field>) {
    forall i, j :: 0 <= i < j < |fields| ==> Less(fields[i].key, fields[j].key)
  }

  ghost predicate DistinctKeys(fields: seq<Field>) {
    forall i, j :: 0 <= i < j < |fields| ==> fields[i].key != fields[j].key
  }

  function Insert(f: Field, sorted: seq<Field>): (r: seq<Field>)
    ensures forall g :: g in r <==> g == f || g in sorted
  {
    if sorted == [] || Less(f.key, sorted[0].key) then [f] + sorted
    else [sorted[0]] + Insert(f, sorted[1..])
  }

  /** The entries in the order of their keys. */
  function SortFields(fields: seq<Field>): (r: seq<Field>)
    ensures forall g :: g in r <==> g in fields
  {
    if fields == [] then [] else Insert(fields[0], SortFields(fields[1..]))
  }

  lemma {:induction false} InsertIncreases(f: Field, sorted: seq<Field>)
    requires Increasing(sorted) && forall g :: g in sorted ==> g.key != f.key
    ensures Increasing(Insert(f, sorted))
  {
    if sorted == [] {
    } else if Less(f.key, sorted[0].key) {
      forall j | 0 <= j < |sorted|
        ensures Less(f.key, sorted[j].key)
      {
        if j > 0 {
          LessTransitive(f.key, sorted[0].key, sorted[j].key);
        }
      }
    } else {
      assert sorted[0] in sorted;
      LessTotal(f.key, sorted[0].key);
      InsertIncreases(f, sorted[1..]);
      var rest := Insert(f, sorted[1..]);
      forall j | 0 <= j < |rest|
        ensures Less(sorted[0].key, rest[j].key)
      {
        assert rest[j] in rest;
      }
    }
  }

  lemma {:induction false} SortIncreases(fields: seq<Field>)
    requires DistinctKeys(fields)
    ensures Increasing(SortFields(fields))
  {
    if fields != [] {
      SortIncreases(fields[1..]);
      InsertIncreases(fields[0], SortFields(fields[1..]));
    }
  }

  // ------------------------------------------------------------- rendering

  predicate IsLead(u: Unit) {
    0xD800 <= u < 0xDC00
  }

  predicate IsTrail(u: Unit) {
    0xDC00 <= u < 0xE000
  }

  /** A surrogate that is not half of a pair. */
  predicate Lone(s: Text, i: nat)
    requires i < |s|
  {
    || (IsLead(s[i]) && !(i + 1 < |s| && IsTrail(s[i + 1])))
    || (IsTrail(s[i]) && !(i > 0 && IsLead(s[i - 1])))
  }

  function HexDigit(d: int): Unit
    requires 0 <= d < 16
  {
    if d < 10 then 0x30 + d else 0x61 + d - 10
  }

  function Hex(u: Unit): Text {
    [BACKSLASH, 0x75, HexDigit(u / 4096), HexDigit(u / 256 % 16), HexDigit(u / 16 % 16), HexDigit(u % 16)]
  }

  function Escape(u: Unit, lone: bool): (e: Text)
    ensures e != [] && e[0] != QUOTE
  {
    if u == QUOTE || u == BACKSLASH then [BACKSLASH, u]
    else if u == 0x08 then [BACKSLASH, 0x62]
    else if u == 0x09 then [BACKSLASH, 0x74]
    else if u == 0x0A then [BACKSLASH, 0x6E]
    else if u == 0x0C then [BACKSLASH, 0x66]
    else if u == 0x0D then [BACKSLASH, 0x72]
    else if u < 0x20 || lone then Hex(u)
    else [u]
  }

  function EscapeFrom(s: Text, i: nat): Text
    requires i <= |s|
    decreases |s| - i
  {
    if i == |s| then [] else Escape(s[i], Lone(s, i)) + EscapeFrom(s, i + 1)
  }

  /** JSON.stringify of a string. */
  function Quote(s: Text): Text {
    [QUOTE] + EscapeFrom(s, 0) + [QUOTE]
  }

  /** stableStringify. */
  function Render(j: Json): Text
    decreases j, 1, 0
  {
    match j
    case Null => NULL_TEXT
    case Bool(b) => if b then TRUE_TEXT else FALSE_TEXT
    case Num(text) => text
    case Infinite(_) => NULL_TEXT
    case Str(s) => Quote(s)
    case Arr(items) => [OPEN_BRACKET] + Items(items) + [CLOSE_BRACKET]
    case Obj(fields) =>
      assert forall k :: 0 <= k < |fields| ==> fields[k].value < j;
      [OPEN_BRACE] + Members(SortFields(fields), j) + [CLOSE_BRACE]
  }

  function Items(items: seq<Json>): Text
    decreases items, 0, |items|
  {
    if items == [] then []
    else if |items| == 1 then Render(items[0])
    else Render(items[0]) + [COMMA] + Items(items[1..])
  }

  function Members(fields: seq<Field>, ghost owner: Json): Text
    requires forall f :: f in fields ==> f.value < owner
    decreases owner, 0, |fields|
  {
    if fields == [] then []
    else
      var first := Quote(fields[0].key) + [COLON] + Render(fields[0].value);
      if |fields| == 1 then first else first + [COMMA] + Members(fields[1..], owner)
  }

  // ----------------------------------------------- equality up to key order

  predicate IsNumeralUnit(u: Unit) {
    0x30 <= u <= 0x39 || u == 0x2B || u == 0x2D || u == 0x2E || u == 0x65
  }

  predicate IsNumeral(text: Text) {
    text != [] && forall i :: 0 <= i < |text| ==> IsNumeralUnit(text[i])
  }

  /** Values that JSON.parse can return: printed numbers, and no key twice in an object. */
  ghost predicate Parsed(j: Json) {
    match j
    case Num(text) => IsNumeral(text)
    case Arr(items) => forall i :: 0 <= i < |items| ==> Parsed(items[i])
    case Obj(fields) => DistinctKeys(fields) && forall i :: 0 <= i < |fields| ==> Parsed(fields[i].value)
    case _ => true
  }

  /** JSON.stringify prints an infinite number as null. */
  predicate PrintsNull(j: Json) {
    j.Null? || j.Infinite?
  }

  /** Equal up to the order of keys, an infinite number counting as null. */
  ghost predicate Same(a: Json, b: Json)
    decreases a, 0
  {
    if PrintsNull(a) then PrintsNull(b)
    else match a
      case Arr(items) =>
        b.Arr? && |b.items| == |items| && forall i :: 0 <= i < |items| ==> Same(items[i], b.items[i])
      case Obj(fields) =>
        && b.Obj?
        && KeysWithin(b.fields, fields)
        && forall i :: 0 <= i < |fields| ==> HasSame(fields[i], b.fields)
      case _ => a == b
  }

  /** Some entry has the same key and the same value. */
  ghost predicate HasSame(f: Field, fields: seq<Field>)
    decreases f.value, 1
  {
    exists g :: g in fields && g.key == f.key && Same(f.value, g.value)
  }

  ghost predicate KeysWithin(p: seq<Field>, q: seq<Field>) {
    forall f :: f in p ==> exists g :: g in q && g.key == f.key
  }

  // ------------------------------------------------------- unique readability

  /** What can follow a value inside a text. */
  predicate Ends(x: Text) {
    x == [] || x[0] == COMMA || x[0] == CLOSE_BRACKET || x[0] == CLOSE_BRACE
  }

  lemma {:induction false} NumeralsUnique(a: Text, b: Text, x: Text, y: Text)
    requires forall i :: 0 <= i < |a| ==> IsNumeralUnit(a[i])
    requires forall i :: 0 <= i < |b| ==> IsNumeralUnit(b[i])
    requires Ends(x) && Ends(y) && a + x == b + y
    ensures a == b && x == y
  {
    BothEmptyOrNeither(a, b, x, y);
    if a == [] {
      assert a + x == x && b + y == y;
    } else {
      assert a + x == [a[0]] + (a[1..] + x) && b + y == [b[0]] + (b[1..] + y);
      assert (a + x)[0] == a[0] && (b + y)[0] == b[0];
      DropFirst(a[0], a[1..] + x, b[1..] + y);
      NumeralsUnique(a[1..], b[1..], x, y);
      assert a == [a[0]] + a[1..] && b == [b[0]] + b[1..];
    }
  }

  lemma {:induction false} BothEmptyOrNeither(a: Text, b: Text, x: Text, y: Text)
    requires a != [] ==> IsNumeralUnit(a[0])
    requires b != [] ==> IsNumeralUnit(b[0])
    requires Ends(x) && Ends(y) && a + x == b + y
    ensures a == [] <==> b == []
  {
    var w := a + x;
    if a == [] {
      assert w == x;
    } else {
      assert w[0] == a[0];
    }
    if b == [] {
      assert w == y;
    } else {
      assert w[0] == b[0];
    }
  }

  lemma {:induction false} HexUnique(u: Unit, v: Unit)
    requires Hex(u) == Hex(v)
    ensures u == v
  {
    Nibbles(u);
    Nibbles(v);
    HexDigitUnique(u / 4096, v / 4096, Hex(u)[2], Hex(v)[2]);
    HexDigitUnique(u / 256 % 16, v / 256 % 16, Hex(u)[3], Hex(v)[3]);
    HexDigitUnique(u / 16 % 16, v / 16 % 16, Hex(u)[4], Hex(v)[4]);
    HexDigitUnique(u % 16, v % 16, Hex(u)[5], Hex(v)[5]);
  }

  lemma {:induction false} HexDigitUnique(d: int, e: int, p: Unit, q: Unit)
    requires 0 <= d < 16 && 0 <= e < 16 && p == HexDigit(d) && q == HexDigit(e)
    ensures p == q <==> d == e
  {
  }

  lemma {:induction false} Nibbles(u: Unit)
    ensures u == u / 4096 * 4096 + u / 256 % 16 * 256 + u / 16 % 16 * 16 + u % 16
  {
    var a := u / 16;
    var b := a / 16;
    assert u / 256 == b && u / 4096 == b / 16;
  }

  predicate IsCodeword(e: Text) {
    || (|e| == 1 && e[0] != BACKSLASH)
    || (|e| == 2 && e[0] == BACKSLASH && e[1] != 0x75)
    || (|e| == 6 && e[0] == BACKSLASH && e[1] == 0x75)
  }

  lemma {:induction false} EscapeIsCodeword(u: Unit, lone: bool)
    ensures IsCodeword(Escape(u, lone))
  {
  }

  lemma {:induction false} CodewordsUnique(d: Text, e: Text, x: Text, y: Text)
    requires IsCodeword(d) && IsCodeword(e) && d + x == e + y
    ensures d == e && x == y
  {
    var w := d + x;
    assert w[0] == d[0] && w[0] == e[0];
    if d[0] == BACKSLASH {
      assert w[1] == d[1] && w[1] == e[1];
    }
    assert d == w[..|d|] && e == w[..|e|] && x == w[|d|..] && y == w[|e|..];
  }

  lemma {:induction false} EscapeUnique(u: Unit, k: bool, v: Unit, l: bool)
    requires Escape(u, k) == Escape(v, l)
    ensures u == v
  {
    if |Escape(u, k)| == 6 {
      assert Escape(u, k) == Hex(u) && Escape(v, l) == Hex(v);
      HexUnique(u, v);
    } else if |Escape(u, k)| == 2 {
      assert Escape(u, k)[1] == Escape(v, l)[1];
    } else {
      assert Escape(u, k)[0] == Escape(v, l)[0];
    }
  }

  lemma {:induction false} Assoc(a: Text, b: Text, c: Text, d: Text)
    ensures a + b + c + d == a + (b + c + d)
  {
  }

  lemma {:induction false} EscapedFirst(u: Unit, k: bool, v: Unit, l: bool, x: Text, y: Text)
    requires Escape(u, k) + x == Escape(v, l) + y
    ensures u == v && x == y
  {
    EscapeIsCodeword(u, k);
    EscapeIsCodeword(v, l);
    CodewordsUnique(Escape(u, k), Escape(v, l), x, y);
    EscapeUnique(u, k, v, l);
  }

  /** Both strings end at the first quote. */
  lemma {:induction false} EscapedEnds(s: Text, i: nat, t: Text, j: nat, x: Text, y: Text)
    requires i <= |s| && j <= |t|
    requires EscapeFrom(s, i) + [QUOTE] + x == EscapeFrom(t, j) + [QUOTE] + y
    ensures i == |s| <==> j == |t|
  {
    StartsWithQuote(s, i, x);
    StartsWithQuote(t, j, y);
  }

  lemma {:induction false} StartsWithQuote(s: Text, i: nat, x: Text)
    requires i <= |s|
    ensures i == |s| <==> (EscapeFrom(s, i) + [QUOTE] + x)[0] == QUOTE
  {
    if i < |s| {
      var e := Escape(s[i], Lone(s, i));
      Assoc(e, EscapeFrom(s, i + 1), [QUOTE], x);
      assert (e + (EscapeFrom(s, i + 1) + [QUOTE] + x))[0] == e[0];
    }
  }

  lemma {:induction false} EscapedStep(s: Text, i: nat, t: Text, j: nat, x: Text, y: Text)
    requires i < |s| && j < |t|
    requires EscapeFrom(s, i) + [QUOTE] + x == EscapeFrom(t, j) + [QUOTE] + y
    ensures s[i] == t[j] && EscapeFrom(s, i + 1) + [QUOTE] + x == EscapeFrom(t, j + 1) + [QUOTE] + y
  {
    var x', y' := EscapeFrom(s, i + 1), EscapeFrom(t, j + 1);
    Assoc(Escape(s[i], Lone(s, i)), x', [QUOTE], x);
    Assoc(Escape(t[j], Lone(t, j)), y', [QUOTE], y);
    EscapedFirst(s[i], Lone(s, i), t[j], Lone(t, j), x' + [QUOTE] + x, y' + [QUOTE] + y);
  }

  lemma {:induction false} EscapedUnique(s: Text, i: nat, t: Text, j: nat, x: Text, y: Text)
    requires i <= |s| && j <= |t|
    requires EscapeFrom(s, i) + [QUOTE] + x == EscapeFrom(t, j) + [QUOTE] + y
    ensures s[i..] == t[j..] && x == y
    decreases |s| - i
  {
    EscapedEnds(s, i, t, j, x, y);
    if i == |s| {
      EscapedDone(x, y);
    } else {
      EscapedStep(s, i, t, j, x, y);
      EscapedUnique(s, i + 1, t, j + 1, x, y);
      FirstOfRest(s, i);
      FirstOfRest(t, j);
    }
  }

  lemma {:induction false} EscapedDone(x: Text, y: Text)
    requires [] + [QUOTE] + x == [] + [QUOTE] + y
    ensures x == y
  {
    assert [] + [QUOTE] + x == [QUOTE] + x && [] + [QUOTE] + y == [QUOTE] + y;
    DropFirst(QUOTE, x, y);
  }

  lemma {:induction false} FirstOfRest(s: Text, i: nat)
    requires i < |s|
    ensures s[i..] == [s[i]] + s[i + 1..]
  {
  }

  lemma {:induction false} QuotesUnique(s: Text, t: Text, x: Text, y: Text)
    requires Quote(s) + x == Quote(t) + y
    ensures s == t && x == y
  {
    var p, q := EscapeFrom(s, 0) + [QUOTE] + x, EscapeFrom(t, 0) + [QUOTE] + y;
    assert Quote(s) + x == [QUOTE] + p && Quote(t) + y == [QUOTE] + q;
    assert p == ([QUOTE] + p)[1..] && q == ([QUOTE] + q)[1..];
    EscapedUnique(s, 0, t, 0, x, y);
    assert s[0..] == s && t[0..] == t;
  }

  /** The first unit of a text tells the kind of value. */
  function Kind(j: Json): int {
    match j
    case Null => 0
    case Infinite(_) => 0
    case Bool(b) => if b then 1 else 2
    case Num(_) => 3
    case Str(_) => 4
    case Arr(_) => 5
    case Obj(_) => 6
  }

  function KindOf(u: Unit): int {
    if u == 0x6E then 0 else if u == 0x74 then 1 else if u == 0x66 then 2
    else if IsNumeralUnit(u) then 3 else if u == QUOTE then 4
    else if u == OPEN_BRACKET then 5 else if u == OPEN_BRACE then 6 else 7
  }

  lemma {:induction false} FirstUnit(j: Json)
    requires Parsed(j)
    ensures Render(j) != [] && KindOf(Render(j)[0]) == Kind(j)
  {
  }

  lemma {:induction false} SameKind(a: Json, b: Json, x: Text, y: Text)
    requires Parsed(a) && Parsed(b) && Render(a) + x == Render(b) + y
    ensures Kind(a) == Kind(b)
  {
    FirstUnit(a);
    FirstUnit(b);
    assert (Render(a) + x)[0] == Render(a)[0] && (Render(b) + y)[0] == Render(b)[0];
  }

  lemma {:induction false} DropFirst(u: Unit, p: Text, q: Text)
    requires [u] + p == [u] + q
    ensures p == q
  {
    assert p == ([u] + p)[1..] && q == ([u] + q)[1..];
  }

  lemma {:induction false} DropSame(w: Text, x: Text, y: Text)
    requires w + x == w + y
    ensures x == y
  {
    assert x == (w + x)[|w|..] && y == (w + y)[|w|..];
  }

  // What is left of a list after its first element has been read.

  function ItemsTail(items: seq<Json>, x: Text): Text
    requires items != []
  {
    if |items| == 1 then [CLOSE_BRACKET] + x else [COMMA] + (Items(items[1..]) + [CLOSE_BRACKET] + x)
  }

  lemma {:induction false} ItemsSplit(items: seq<Json>, x: Text)
    requires items != []
    ensures Items(items) + [CLOSE_BRACKET] + x == Render(items[0]) + ItemsTail(items, x)
  {
  }

  function MembersTail(fields: seq<Field>, ghost owner: Json, x: Text): Text
    requires fields != [] && forall f :: f in fields ==> f.value < owner
  {
    if |fields| == 1 then [CLOSE_BRACE] + x else [COMMA] + (Members(fields[1..], owner) + [CLOSE_BRACE] + x)
  }

  lemma {:induction false} MembersSplit(fields: seq<Field>, owner: Json, x: Text)
    requires fields != [] && forall f :: f in fields ==> f.value < owner
    ensures Members(fields, owner) + [CLOSE_BRACE] + x
         == Quote(fields[0].key) + ([COLON] + (Render(fields[0].value) + MembersTail(fields, owner, x)))
  {
    var q, r := Quote(fields[0].key), Render(fields[0].value);
    if |fields| == 1 {
      SplitLast(q, [COLON], r, [CLOSE_BRACE], x);
    } else {
      SplitMore(q, [COLON], r, [COMMA], Members(fields[1..], owner), [CLOSE_BRACE], x);
    }
  }

  lemma {:induction false} SplitLast(a: Text, b: Text, c: Text, e: Text, x: Text)
    ensures a + b + c + e + x == a + (b + (c + (e + x)))
  {
  }

  lemma {:induction false} SplitMore(a: Text, b: Text, c: Text, m: Text, more: Text, e: Text, x: Text)
    ensures a + b + c + m + more + e + x == a + (b + (c + (m + (more + e + x))))
  {
    SplitLast(a, b, c, m, more + e + x);
    var front := a + b + c + m;
    assert front + more + e + x == front + (more + e + x);
  }

  lemma {:induction false} RenderUnique(a: Json, b: Json, x: Text, y: Text)
    requires Parsed(a) && Parsed(b) && Ends(x) && Ends(y)
    requires Render(a) + x == Render(b) + y
    ensures Same(a, b) && x == y
    decreases a, 3, 0
  {
    SameKind(a, b, x, y);
    match a
    case Null => DropSame(NULL_TEXT, x, y);
    case Infinite(_) => DropSame(NULL_TEXT, x, y);
    case Bool(_) => DropSame(Render(a), x, y);
    case Num(_) => NumeralsUnique(Render(a), Render(b), x, y);
    case Str(s) => QuotesUnique(s, b.s, x, y);
    case Arr(items) =>
      Assoc([OPEN_BRACKET], Items(items), [CLOSE_BRACKET], x);
      Assoc([OPEN_BRACKET], Items(b.items), [CLOSE_BRACKET], y);
      DropFirst(OPEN_BRACKET, Items(items) + [CLOSE_BRACKET] + x, Items(b.items) + [CLOSE_BRACKET] + y);
      ItemsUnique(items, b.items, x, y);
    case Obj(_) => ObjectsUnique(a, b, x, y);
  }

  lemma {:induction false} ItemsUnique(p: seq<Json>, q: seq<Json>, x: Text, y: Text)
    requires forall i :: 0 <= i < |p| ==> Parsed(p[i])
    requires forall i :: 0 <= i < |q| ==> Parsed(q[i])
    requires Items(p) + [CLOSE_BRACKET] + x == Items(q) + [CLOSE_BRACKET] + y
    ensures |p| == |q| && (forall i :: 0 <= i < |p| ==> Same(p[i], q[i])) && x == y
    decreases p, 0, |p|
  {
    ItemsHead(p, x);
    ItemsHead(q, y);
    if p == [] {
      DropFirst(CLOSE_BRACKET, x, y);
    } else {
      ItemsSplit(p, x);
      ItemsSplit(q, y);
      RenderUnique(p[0], q[0], ItemsTail(p, x), ItemsTail(q, y));
      assert ItemsTail(p, x)[0] == ItemsTail(q, y)[0];
      if |p| == 1 {
        DropFirst(CLOSE_BRACKET, x, y);
      } else {
        DropFirst(COMMA, Items(p[1..]) + [CLOSE_BRACKET] + x, Items(q[1..]) + [CLOSE_BRACKET] + y);
        ItemsUnique(p[1..], q[1..], x, y);
        forall i | 0 <= i < |p|
          ensures Same(p[i], q[i])
        {
          if i > 0 {
            assert Same(p[1..][i - 1], q[1..][i - 1]);
          }
        }
      }
    }
  }

  lemma {:induction false} HeadOf(first: Text, tail: Text)
    requires first != []
    ensures (first + tail)[0] == first[0]
  {
  }

  lemma {:induction false} ItemsHead(items: seq<Json>, x: Text)
    requires items != [] ==> Parsed(items[0])
    ensures items == [] ==> Items(items) + [CLOSE_BRACKET] + x == [CLOSE_BRACKET] + x
    ensures items != [] ==> (Items(items) + [CLOSE_BRACKET] + x)[0] != CLOSE_BRACKET
  {
    if items != [] {
      FirstItem(items[0], ItemsTail(items, x));
      ItemsSplit(items, x);
    }
  }

  lemma {:induction false} FirstItem(j: Json, tail: Text)
    requires Parsed(j)
    ensures (Render(j) + tail)[0] != CLOSE_BRACKET
  {
    FirstUnit(j);
    HeadOf(Render(j), tail);
  }

  lemma {:induction false} MembersHead(fields: seq<Field>, owner: Json, x: Text)
    requires forall f :: f in fields ==> f.value < owner
    ensures (Members(fields, owner) + [CLOSE_BRACE] + x)[0] == CLOSE_BRACE <==> fields == []
    ensures fields == [] ==> Members(fields, owner) + [CLOSE_BRACE] + x == [CLOSE_BRACE] + x
  {
    if fields != [] {
      MembersSplit(fields, owner, x);
    }
  }

  /** Entries that agree on every key and value, in order. */
  ghost predicate SameEntries(p: seq<Field>, q: seq<Field>) {
    |p| == |q| && forall i :: 0 <= i < |p| ==> p[i].key == q[i].key && Same(p[i].value, q[i].value)
  }

  ghost predicate ParsedEntries(p: seq<Field>, owner: Json) {
    forall f :: f in p ==> f.value < owner && Parsed(f.value)
  }

  lemma {:induction false} MembersUnique(p: seq<Field>, q: seq<Field>, a: Json, b: Json, x: Text, y: Text)
    requires ParsedEntries(p, a) && ParsedEntries(q, b)
    requires Members(p, a) + [CLOSE_BRACE] + x == Members(q, b) + [CLOSE_BRACE] + y
    ensures SameEntries(p, q) && x == y
    decreases a, 0, |p|
  {
    MembersHead(p, a, x);
    MembersHead(q, b, y);
    if p == [] {
      DropFirst(CLOSE_BRACE, x, y);
    } else {
      var px, qy := MembersTail(p, a, x), MembersTail(q, b, y);
      MembersSplit(p, a, x);
      MembersSplit(q, b, y);
      QuotesUnique(p[0].key, q[0].key, [COLON] + (Render(p[0].value) + px), [COLON] + (Render(q[0].value) + qy));
      DropFirst(COLON, Render(p[0].value) + px, Render(q[0].value) + qy);
      assert p[0] in p && q[0] in q;
      RenderUnique(p[0].value, q[0].value, px, qy);
      assert px[0] == qy[0];
      if |p| == 1 {
        DropFirst(CLOSE_BRACE, x, y);
      } else {
        DropFirst(COMMA, Members(p[1..], a) + [CLOSE_BRACE] + x, Members(q[1..], b) + [CLOSE_BRACE] + y);
        MembersUnique(p[1..], q[1..], a, b, x, y);
        SameEntriesPush(p, q);
      }
    }
  }

  lemma {:induction false} SameEntriesPush(p: seq<Field>, q: seq<Field>)
    requires p != [] && q != [] && SameEntries(p[1..], q[1..])
    requires p[0].key == q[0].key && Same(p[0].value, q[0].value)
    ensures SameEntries(p, q)
  {
    forall i | 0 <= i < |p|
      ensures p[i].key == q[i].key && Same(p[i].value, q[i].value)
    {
      if i > 0 {
        assert p[i] == p[1..][i - 1] && q[i] == q[1..][i - 1];
      }
    }
  }

  lemma {:induction false} OwnsEntries(a: Json)
    requires a.Obj? && Parsed(a)
    ensures ParsedEntries(SortFields(a.fields), a)
  {
    assert forall k :: 0 <= k < |a.fields| ==> a.fields[k].value < a;
  }

  lemma {:induction false} ObjectsUnique(a: Json, b: Json, x: Text, y: Text)
    requires a.Obj? && b.Obj? && Parsed(a) && Parsed(b) && Render(a) + x == Render(b) + y
    ensures Same(a, b) && x == y
    decreases a, 2, 0
  {
    var p, q := SortFields(a.fields), SortFields(b.fields);
    OwnsEntries(a);
    OwnsEntries(b);
    Assoc([OPEN_BRACE], Members(p, a), [CLOSE_BRACE], x);
    Assoc([OPEN_BRACE], Members(q, b), [CLOSE_BRACE], y);
    DropFirst(OPEN_BRACE, Members(p, a) + [CLOSE_BRACE] + x, Members(q, b) + [CLOSE_BRACE] + y);
    MembersUnique(p, q, a, b, x, y);
    SameFromSorted(a, b);
  }

  lemma {:induction false} SameFromSorted(a: Json, b: Json)
    requires a.Obj? && b.Obj? && SameEntries(SortFields(a.fields), SortFields(b.fields))
    ensures KeysWithin(b.fields, a.fields)
    ensures forall i :: 0 <= i < |a.fields| ==> HasSame(a.fields[i], b.fields)
  {
    forall f | f in b.fields
      ensures exists g :: g in a.fields && g.key == f.key
    {
      var g := KeyInFirst(a, b, f);
    }
    forall i | 0 <= i < |a.fields|
      ensures HasSame(a.fields[i], b.fields)
    {
      var g := KeyInSecond(a, b, a.fields[i]);
    }
  }

  lemma {:induction false} KeyInFirst(a: Json, b: Json, f: Field) returns (g: Field)
    requires a.Obj? && b.Obj? && SameEntries(SortFields(a.fields), SortFields(b.fields)) && f in b.fields
    ensures g in a.fields && g.key == f.key
  {
    var p, q := SortFields(a.fields), SortFields(b.fields);
    assert f in q;
    var k :| 0 <= k < |q| && q[k] == f;
    g := p[k];
    assert g in p;
  }

  lemma {:induction false} KeyInSecond(a: Json, b: Json, f: Field) returns (g: Field)
    requires a.Obj? && b.Obj? && SameEntries(SortFields(a.fields), SortFields(b.fields)) && f in a.fields
    ensures g in b.fields && g.key == f.key && Same(f.value, g.value)
  {
    var p, q := SortFields(a.fields), SortFields(b.fields);
    assert f in p;
    var k :| 0 <= k < |p| && p[k] == f;
    g := q[k];
    assert g in q;
  }

  // ----------------------------------------------------- equal values agree

  function Keys(fields: seq<Field>): (keys: seq<Text>)
    ensures |keys| == |fields| && forall i :: 0 <= i < |fields| ==> keys[i] == fields[i].key
  {
    seq(|fields|, i requires 0 <= i < |fields| => fields[i].key)
  }

  ghost predicate Ascending(keys: seq<Text>) {
    forall i, j :: 0 <= i < j < |keys| ==> Less(keys[i], keys[j])
  }

  /** Ascending sequences over the same keys are the same sequence. */
  lemma {:induction false} AscendingUnique(s: seq<Text>, t: seq<Text>)
    requires Ascending(s) && Ascending(t) && forall k :: k in s <==> k in t
    ensures s == t
  {
    if s == [] {
      assert forall i :: 0 <= i < |t| ==> t[i] in t;
    } else {
      assert s[0] in t;
      assert t[0] in s;
      LessTotal(s[0], t[0]);
      assert s[0] == t[0];
      forall k
        ensures k in s[1..] <==> k in t[1..]
      {
        LessTotal(s[0], s[0]);
        assert k in s[1..] <==> k in s && k != s[0];
        assert k in t[1..] <==> k in t && k != t[0];
      }
      AscendingUnique(s[1..], t[1..]);
      assert s == [s[0]] + s[1..] && t == [t[0]] + t[1..];
    }
  }

  lemma {:induction false} KeysAgree(p: seq<Field>, q: seq<Field>)
    requires Increasing(p) && Increasing(q) && KeysWithin(p, q) && KeysWithin(q, p)
    ensures Keys(p) == Keys(q)
  {
    SubsetOfKeys(p, q);
    SubsetOfKeys(q, p);
    AscendingUnique(Keys(p), Keys(q));
  }

  lemma {:induction false} SubsetOfKeys(p: seq<Field>, q: seq<Field>)
    requires KeysWithin(p, q)
    ensures forall k :: k in Keys(p) ==> k in Keys(q)
  {
    forall k | k in Keys(p)
      ensures k in Keys(q)
    {
      var i :| 0 <= i < |p| && Keys(p)[i] == k;
      assert p[i] in p;
      var g :| g in q && g.key == k;
      var j :| 0 <= j < |q| && q[j] == g;
      assert Keys(q)[j] == k;
    }
  }

  /** Equal values, up to the order of keys, have the same text. */
  lemma {:induction false} SameRenders(a: Json, b: Json)
    requires Parsed(a) && Parsed(b) && Same(a, b)
    ensures Render(a) == Render(b)
    decreases a, 2, 0
  {
    match a
    case Arr(items) => SameItems(items, b.items);
    case Obj(_) => SameObjects(a, b);
    case _ =>
  }

  lemma {:induction false} SameItems(p: seq<Json>, q: seq<Json>)
    requires |p| == |q| && forall i :: 0 <= i < |p| ==> Parsed(p[i]) && Parsed(q[i]) && Same(p[i], q[i])
    ensures Items(p) == Items(q)
    decreases p, 0, |p|
  {
    if p != [] {
      SameRenders(p[0], q[0]);
      SameItems(p[1..], q[1..]);
    }
  }

  lemma {:induction false} SameMembers(p: seq<Field>, q: seq<Field>, a: Json, b: Json)
    requires ParsedEntries(p, a) && ParsedEntries(q, b) && SameEntries(p, q)
    ensures Members(p, a) == Members(q, b)
    decreases a, 0, |p|
  {
    if p != [] {
      assert p[0] in p && q[0] in q;
      SameRenders(p[0].value, q[0].value);
      RestOfEntries(p, q, a, b);
      SameMembers(p[1..], q[1..], a, b);
    }
  }

  lemma {:induction false} RestOfEntries(p: seq<Field>, q: seq<Field>, a: Json, b: Json)
    requires p != [] && ParsedEntries(p, a) && ParsedEntries(q, b) && SameEntries(p, q)
    ensures ParsedEntries(p[1..], a) && ParsedEntries(q[1..], b) && SameEntries(p[1..], q[1..])
  {
  }

  lemma {:induction false} SameObjects(a: Json, b: Json)
    requires a.Obj? && b.Obj? && Parsed(a) && Parsed(b) && Same(a, b)
    ensures Render(a) == Render(b)
    decreases a, 1, 0
  {
    var p, q := SortFields(a.fields), SortFields(b.fields);
    OwnsEntries(a);
    OwnsEntries(b);
    SortIncreases(a.fields);
    SortIncreases(b.fields);
    SortedKeysWithin(a, b, p, q);
    KeysAgree(p, q);
    SortedAgree(a, b, p, q);
    SameMembers(p, q, a, b);
  }

  ghost predicate SameMembersOf(p: seq<Field>, fields: seq<Field>) {
    forall f :: f in p <==> f in fields
  }

  lemma {:induction false} SortedAgree(a: Json, b: Json, p: seq<Field>, q: seq<Field>)
    requires a.Obj? && b.Obj? && Same(a, b) && DistinctKeys(b.fields)
    requires SameMembersOf(p, a.fields) && SameMembersOf(q, b.fields) && Keys(p) == Keys(q)
    ensures SameEntries(p, q)
  {
    assert |p| == |Keys(p)| == |Keys(q)| == |q|;
    forall i | 0 <= i < |p|
      ensures p[i].key == q[i].key && Same(p[i].value, q[i].value)
    {
      assert Keys(p)[i] == Keys(q)[i];
      assert p[i] in p && q[i] in q;
      CounterpartIs(a, b, p[i], q[i]);
    }
  }

  lemma {:induction false} CounterpartIs(a: Json, b: Json, f: Field, g: Field)
    requires a.Obj? && b.Obj? && Same(a, b) && DistinctKeys(b.fields)
    requires f in a.fields && g in b.fields && f.key == g.key
    ensures Same(f.value, g.value)
  {
    var h := Counterpart(a, b, f);
    KeyDetermines(b.fields, g, h);
  }

  lemma {:induction false} SortedKeysWithin(a: Json, b: Json, p: seq<Field>, q: seq<Field>)
    requires a.Obj? && b.Obj? && Same(a, b)
    requires SameMembersOf(p, a.fields) && SameMembersOf(q, b.fields)
    ensures KeysWithin(p, q) && KeysWithin(q, p)
  {
    forall f | f in p
      ensures exists g :: g in q && g.key == f.key
    {
      var g := Counterpart(a, b, f);
      assert g in q;
    }
    forall f | f in q
      ensures exists g :: g in p && g.key == f.key
    {
      var g := KeyOwner(a, b, f);
      assert g in p;
    }
  }

  lemma {:induction false} KeyOwner(a: Json, b: Json, f: Field) returns (g: Field)
    requires a.Obj? && b.Obj? && Same(a, b) && f in b.fields
    ensures g in a.fields && g.key == f.key
  {
    assert KeysWithin(b.fields, a.fields);
    g :| g in a.fields && g.key == f.key;
  }

  lemma {:induction false} Counterpart(a: Json, b: Json, f: Field) returns (g: Field)
    requires a.Obj? && b.Obj? && Same(a, b) && f in a.fields
    ensures g in b.fields && g.key == f.key && Same(f.value, g.value)
  {
    var i :| 0 <= i < |a.fields| && a.fields[i] == f;
    assert HasSame(a.fields[i], b.fields);
    g :| g in b.fields && g.key == f.key && Same(f.value, g.value);
  }

  lemma {:induction false} KeyDetermines(fields: seq<Field>, f: Field, g: Field)
    requires DistinctKeys(fields) && f in fields && g in fields && f.key == g.key
    ensures f == g
  {
    var i :| 0 <= i < |fields| && fields[i] == f;
    var j :| 0 <= j < |fields| && fields[j] == g;
    assert i == j;
  }

  /**
   * The canonical text is one: two parsed values have the same text exactly when they
   * are equal up to the order of keys (an infinite number counting as null).
   */
  lemma {:induction false} TextIsCanonical(a: Json, b: Json)
    requires Parsed(a) && Parsed(b)
    ensures Render(a) == Render(b) <==> Same(a, b)
  {
    if Render(a) == Render(b) {
      assert Render(a) + [] == Render(b) + [];
      RenderUnique(a, b, [], []);
    }
    if Same(a, b) {
      SameRenders(a, b);
    }
  }

  /** No number in the value is beyond the range of a double. */
  ghost predicate Finite(j: Json) {
    match j
    case Infinite(_) => false
    case Arr(items) => forall i :: 0 <= i < |items| ==> Finite(items[i])
    case Obj(fields) => forall i :: 0 <= i < |fields| ==> Finite(fields[i].value)
    case _ => true
  }

  /** Equality up to the order of keys and nothing else. */
  ghost predicate EqualUpToOrder(a: Json, b: Json)
    decreases a, 0
  {
    match a
    case Arr(items) =>
      b.Arr? && |b.items| == |items| && forall i :: 0 <= i < |items| ==> EqualUpToOrder(items[i], b.items[i])
    case Obj(fields) =>
      && b.Obj?
      && KeysWithin(b.fields, fields)
      && forall i :: 0 <= i < |fields| ==> HasEqual(fields[i], b.fields)
    case _ => a == b
  }

  ghost predicate HasEqual(f: Field, fields: seq<Field>)
    decreases f.value, 1
  {
    exists g :: g in fields && g.key == f.key && EqualUpToOrder(f.value, g.value)
  }

  lemma {:induction false} FiniteSame(a: Json, b: Json)
    requires Finite(a) && Finite(b)
    ensures Same(a, b) <==> EqualUpToOrder(a, b)
    decreases a, 1
  {
    match a
    case Arr(items) =>
      if b.Arr? && |b.items| == |items| {
        forall i | 0 <= i < |items|
          ensures Same(items[i], b.items[i]) <==> EqualUpToOrder(items[i], b.items[i])
        {
          FiniteSame(items[i], b.items[i]);
        }
      }
    case Obj(fields) =>
      if b.Obj? {
        FiniteSameFields(a, b);
      }
    case _ =>
  }

  lemma {:induction false} FiniteSameFields(a: Json, b: Json)
    requires Finite(a) && Finite(b) && a.Obj? && b.Obj?
    ensures Same(a, b) <==> EqualUpToOrder(a, b)
    decreases a, 0
  {
    forall i | 0 <= i < |a.fields|
      ensures HasSame(a.fields[i], b.fields) <==> HasEqual(a.fields[i], b.fields)
    {
      FiniteHas(a.fields[i], b);
    }
  }

  lemma {:induction false} FiniteHas(f: Field, b: Json)
    requires Finite(f.value) && Finite(b) && b.Obj?
    ensures HasSame(f, b.fields) <==> HasEqual(f, b.fields)
    decreases f.value, 2
  {
    forall g | g in b.fields ensures Same(f.value, g.value) <==> EqualUpToOrder(f.value, g.value) {
      var k :| 0 <= k < |b.fields| && b.fields[k] == g;
      FiniteSame(f.value, g.value);
    }
  }

  /** For values without infinite numbers the text is canonical without exception. */
  lemma {:induction false} FiniteTextIsCanonical(a: Json, b: Json)
    requires Parsed(a) && Parsed(b) && Finite(a) && Finite(b)
    ensures Render(a) == Render(b) <==> EqualUpToOrder(a, b)
  {
    TextIsCanonical(a, b);
    FiniteSame(a, b);
  }

  /** A literal such as 1e999 collides with null. */
  lemma {:induction false} InfiniteCollides(key: Text, negative: bool)
    ensures var a, b := Obj([Field(key, Infinite(negative))]), Obj([Field(key, Null)]);
            Parsed(a) && Parsed(b) && Render(a) == Render(b) && !EqualUpToOrder(a, b)
  {
    var a, b := Obj([Field(key, Infinite(negative))]), Obj([Field(key, Null)]);
    assert b.fields[0] in b.fields && a.fields[0] in a.fields;
    TextIsCanonical(a, b);
    assert HasSame(a.fields[0], b.fields) by {
      assert Same(a.fields[0].value, b.fields[0].value);
    }
    assert forall g :: g in b.fields ==> !EqualUpToOrder(a.fields[0].value, g.value);
  }

  // -------------------------------------- what a string's text is read as

  function HexValue(d: Unit): (v: int)
    ensures 0 <= v < 16
  {
    if 0x30 <= d <= 0x39 then d - 0x30 else if 0x61 <= d <= 0x66 then d - 0x61 + 10 else 0
  }

  /** The character that a two-character escape stands for (section 7 of RFC 8259). */
  function Meant(e: Unit): Unit {
    if e == 0x62 then 0x08
    else if e == 0x74 then 0x09
    else if e == 0x6E then 0x0A
    else if e == 0x66 then 0x0C
    else if e == 0x72 then 0x0D
    else e
  }

  /** What a reader of JSON makes of the text between two quotation marks. */
  function ReadBack(t: Text): Text {
    if t == [] then []
    else if t[0] != BACKSLASH then [t[0]] + ReadBack(t[1..])
    else if |t| >= 6 && t[1] == 0x75 then
      [HexValue(t[2]) * 4096 + HexValue(t[3]) * 256 + HexValue(t[4]) * 16 + HexValue(t[5])] + ReadBack(t[6..])
    else if |t| >= 2 then [Meant(t[1])] + ReadBack(t[2..])
    else []
  }

  lemma {:induction false} HexReads(u: Unit, rest: Text)
    ensures ReadBack(Hex(u) + rest) == [u] + ReadBack(rest)
  {
    var t := Hex(u) + rest;
    Nibbles(u);
    assert t[6..] == rest;
  }

  lemma {:induction false} EscapeReads(u: Unit, lone: bool, rest: Text)
    ensures ReadBack(Escape(u, lone) + rest) == [u] + ReadBack(rest)
  {
    var e := Escape(u, lone);
    var t := e + rest;
    if e == Hex(u) {
      HexReads(u, rest);
    } else if |e| == 2 {
      assert t[2..] == rest && t[1] != 0x75;
    } else {
      assert t[1..] == rest;
    }
  }

  lemma {:induction false} EscapesRead(s: Text, i: nat)
    requires i <= |s|
    ensures ReadBack(EscapeFrom(s, i)) == s[i..]
    decreases |s| - i
  {
    if i < |s| {
      EscapesRead(s, i + 1);
      EscapeReads(s[i], Lone(s, i), EscapeFrom(s, i + 1));
      assert s[i..] == [s[i]] + s[i + 1..];
    }
  }

  /** A string is printed between quotation marks as a text that a reader of JSON reads as that string. */
  lemma {:induction false} QuoteIsReadBack(s: Text)
    ensures var t := Quote(s);
            && |t| >= 2 && t[0] == QUOTE && t[|t| - 1] == QUOTE
            && ReadBack(t[1..|t| - 1]) == s
  {
    var t := Quote(s);
    EscapesRead(s, 0);
    assert t[1..|t| - 1] == EscapeFrom(s, 0) && s[0..] == s;
  }
}
