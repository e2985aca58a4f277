/**
 * Unpadded base32 as in section 6 of RFC 4648 (packages/auth/src/totp.ts).
 *
 * JavaScript's bitwise operators work on 32-bit patterns. `value` below is such
 * a pattern read as a number in [0, 2^32): a left shift multiplies and drops what
 * leaves the word, `>>>` divides, `& 31` and `& 0xff` are remainders, and `|` fills low
 * bits that the preceding shift cleared, so it adds.
 */
module Base32 {
  import opened Prelude

  const ALPHABET := "ABCDEFGHIJKLMNOPQRSTUVWXYZ234567"

  const WORD: int := 0x1_0000_0000

  type Byte = b: int | 0 <= b < 256

  type Quintet = q: int | 0 <= q < 32

  type Bits = seq<bool>

  // ------------------------------------------------------- bits and numbers

  function Pow2(n: nat): (p: nat)
    ensures p >= 1
  {
    if n == 0 then 1 else 2 * Pow2(n - 1)
  }

  function Bit(b: bool): int {
    if b then 1 else 0
  }

  /** The number whose binary numeral, most significant bit first, is bits. */
  function ValueOf(bits: Bits): (v: nat)
    ensures v < Pow2(|bits|)
  {
    if bits == [] then 0 else 2 * ValueOf(bits[..|bits| - 1]) + Bit(bits[|bits| - 1])
  }

  function BitsOf(v: nat, n: nat): (bits: Bits)
    ensures |bits| == n
  {
    if n == 0 then [] else BitsOf(v / 2, n - 1) + [v % 2 == 1]
  }

  lemma {:induction false} BitsOfValue(bits: Bits)
    ensures BitsOf(ValueOf(bits), |bits|) == bits
  {
    if bits != [] {
      var front, last := bits[..|bits| - 1], bits[|bits| - 1];
      BitsOfValue(front);
      assert ValueOf(bits) / 2 == ValueOf(front);
      assert bits == front + [last];
    }
  }

  lemma {:induction false} Halve(v: nat, n: nat) returns (half: nat, odd: bool)
    requires n > 0 && v < Pow2(n)
    ensures half < Pow2(n - 1) && v == 2 * half + Bit(odd)
    ensures BitsOf(v, n) == BitsOf(half, n - 1) + [odd]
  {
    half, odd := v / 2, v % 2 == 1;
  }

  lemma {:induction false} ValueOfBits(v: nat, n: nat)
    requires v < Pow2(n)
    ensures ValueOf(BitsOf(v, n)) == v
  {
    if n == 0 {
      assert v == 0;
    } else {
      var half, odd := Halve(v, n);
      var front := BitsOf(half, n - 1);
      ValueOfBits(half, n - 1);
      ValueOfPush(front, odd);
      assert ValueOf(front + [odd]) == v;
    }
  }

  lemma {:induction false} Doubled(x: int, p: int, low: int, bit: int)
    ensures 2 * (x * p + low) + bit == x * (2 * p) + (2 * low + bit)
  {
  }

  lemma {:induction false} ValueOfTake(bits: Bits, n: nat)
    requires 0 < n <= |bits|
    ensures ValueOf(bits[..n]) == 2 * ValueOf(bits[..n - 1]) + Bit(bits[n - 1])
  {
    assert bits[..n][..n - 1] == bits[..n - 1];
  }

  lemma {:induction false} ValueOfPush(bits: Bits, bit: bool)
    ensures ValueOf(bits + [bit]) == 2 * ValueOf(bits) + Bit(bit)
  {
    assert (bits + [bit])[..|bits|] == bits;
  }

  lemma {:induction false} ValueOfConcat(a: Bits, b: Bits)
    ensures ValueOf(a + b) == ValueOf(a) * Pow2(|b|) + ValueOf(b)
  {
    if b == [] {
      assert a + b == a;
    } else {
      var front, last := b[..|b| - 1], b[|b| - 1];
      assert b == front + [last] && a + b == (a + front) + [last];
      ValueOfConcat(a, front);
      ValueOfPush(a + front, last);
      ValueOfPush(front, last);
      Doubled(ValueOf(a), Pow2(|front|), ValueOf(front), Bit(last));
    }
  }

  function Zeros(n: nat): (z: Bits)
    ensures |z| == n
  {
    seq(n, _ => false)
  }

  lemma {:induction false} ValueOfZeros(n: nat)
    ensures ValueOf(Zeros(n)) == 0
  {
    if n > 0 {
      assert Zeros(n)[..n - 1] == Zeros(n - 1);
      ValueOfZeros(n - 1);
    }
  }

  // ------------------------------------- the encoding, from bits (RFC 4648)

  function ByteBits(buf: seq<Byte>): (bits: Bits)
    ensures |bits| == 8 * |buf|
  {
    if buf == [] then [] else BitsOf(buf[0], 8) + ByteBits(buf[1..])
  }

  function Symbol(q: Quintet): char {
    ALPHABET[q]
  }

  /** One symbol for each five bits, the last group filled up with zeros. */
  function Groups(bits: Bits): string {
    if bits == [] then ""
    else if |bits| < 5 then [Symbol(QuintetOf(bits + Zeros(5 - |bits|)))]
    else [Symbol(QuintetOf(bits[..5]))] + Groups(bits[5..])
  }

  function QuintetOf(bits: Bits): Quintet
    requires |bits| == 5
  {
    16 * Bit(bits[0]) + 8 * Bit(bits[1]) + 4 * Bit(bits[2]) + 2 * Bit(bits[3]) + Bit(bits[4])
  }

  lemma {:induction false} QuintetIsValue(bits: Bits)
    requires |bits| == 5
    ensures QuintetOf(bits) == ValueOf(bits)
  {
    assert bits[..5] == bits;
    ValueOfTake(bits, 5);
    ValueOfTake(bits, 4);
    ValueOfTake(bits, 3);
    ValueOfTake(bits, 2);
    ValueOfTake(bits, 1);
  }

  lemma {:induction false} SmallPowers()
    ensures Pow2(1) == 2 && Pow2(2) == 4 && Pow2(3) == 8 && Pow2(4) == 16 && Pow2(5) == 32
    ensures Pow2(6) == 64 && Pow2(7) == 128 && Pow2(8) == 256 && Pow2(9) == 512
    ensures Pow2(10) == 1024 && Pow2(11) == 2048 && Pow2(12) == 4096
  {
    assert Pow2(4) == 16;
    assert Pow2(8) == 256;
  }

  function Encoded(buf: seq<Byte>): string {
    Groups(ByteBits(buf))
  }

  // ------------------------------------------------------------ the decoding

  /**
   * toUpperCase of one character. Outside ASCII it is written out where the result is
   * made of ASCII letters; of any other character it keeps something that is not in the
   * alphabet, for which the character itself stands here.
   */
  function Upper(c: char): string {
    if 'a' <= c <= 'z' then [(c as int - 32) as char]
    else if c == '\U{131}' then "I"
    else if c == '\U{17F}' then "S"
    else if c == '\U{DF}' then "SS"
    else if c == '\U{FB00}' then "FF"
    else if c == '\U{FB01}' then "FI"
    else if c == '\U{FB02}' then "FL"
    else if c == '\U{FB03}' then "FFI"
    else if c == '\U{FB04}' then "FFL"
    else if c == '\U{FB05}' || c == '\U{FB06}' then "ST"
    else [c]
  }

  function UpperAll(s: string): string {
    if s == "" then "" else Upper(s[0]) + UpperAll(s[1..])
  }

  lemma {:induction false} UpperStays(s: string)
    requires forall i :: 0 <= i < |s| ==> Upper(s[i]) == [s[i]]
    ensures UpperAll(s) == s
  {
    if s != "" {
      assert forall i :: 0 <= i < |s| - 1 ==> s[1..][i] == s[i + 1];
      UpperStays(s[1..]);
    }
  }

  function StripPadding(s: string): string {
    if s != "" && s[|s| - 1] == '=' then StripPadding(s[..|s| - 1]) else s
  }

  /** indexOf in the alphabet. */
  function IndexOf(c: char): Option<Quintet> {
    if 'A' <= c <= 'Z' then Some(c as int - 'A' as int)
    else if '2' <= c <= '7' then Some(c as int - '2' as int + 26)
    else None
  }

  lemma {:induction false} IndexOfIsPosition(c: char)
    ensures match IndexOf(c)
            case Some(q) => Symbol(q) == c
            case None => c !in ALPHABET
  {
  }

  lemma {:induction false} IndexOfSymbol(q: Quintet)
    ensures IndexOf(Symbol(q)) == Some(q)
  {
  }

  predicate InAlphabet(s: string) {
    forall i :: 0 <= i < |s| ==> IndexOf(s[i]).Some?
  }

  /** The bits of a text, which must be in the alphabet for them to mean anything. */
  function SymbolBits(s: string): Bits {
    if s == "" then [] else QuintetBits(IndexOf(s[0])) + SymbolBits(s[1..])
  }

  function QuintetBits(index: Option<Quintet>): Bits {
    if index.Some? then BitsOf(index.value, 5) else []
  }

  function ByteOf(bits: Bits): Byte
    requires |bits| == 8
  {
    128 * Bit(bits[0]) + 64 * Bit(bits[1]) + 32 * Bit(bits[2])
    + 16 * Bit(bits[3]) + 8 * Bit(bits[4]) + 4 * Bit(bits[5]) + 2 * Bit(bits[6]) + Bit(bits[7])
  }

  lemma {:induction false} ByteIsValue(bits: Bits)
    requires |bits| == 8
    ensures ByteOf(bits) == ValueOf(bits)
  {
    assert bits[..8] == bits;
    QuintetIsValue(bits[..5]);
    ValueOfTake(bits, 8);
    ValueOfTake(bits, 7);
    ValueOfTake(bits, 6);
  }

  /** The whole bytes of a bit string; a rest of fewer than eight bits is dropped. */
  function Bytes(bits: Bits): seq<Byte> {
    if |bits| < 8 then [] else [ByteOf(bits[..8])] + Bytes(bits[8..])
  }

  /** None when a character outside the alphabet is found. */
  function Decoded(s: string): Option<seq<Byte>> {
    var clean := StripPadding(UpperAll(s));
    if InAlphabet(clean) then Some(Bytes(SymbolBits(clean))) else None
  }

  // --------------------------------------------------------- 32-bit patterns

  function Shl(value: nat, n: nat): nat {
    value * Pow2(n) % WORD
  }

  lemma {:induction false} MulMonotone(a: int, b: int, m: nat)
    requires a <= b
    ensures a * m <= b * m
  {
  }

  lemma {:induction false} DivModUnique(x: int, q: int, r: int, m: nat)
    requires m > 0 && 0 <= r < m && x == q * m + r
    ensures x / m == q && x % m == r
  {
    if x / m < q {
      MulMonotone(x / m + 1, q, m);
    } else if x / m > q {
      MulMonotone(q + 1, x / m, m);
    }
  }

  lemma {:induction false} Pow2Adds(a: nat, b: nat)
    ensures Pow2(a + b) == Pow2(a) * Pow2(b)
  {
    if a > 0 {
      Pow2Adds(a - 1, b);
      assert 2 * Pow2(a - 1) * Pow2(b) == 2 * (Pow2(a - 1) * Pow2(b));
    }
  }

  lemma {:induction false} WordPower()
    ensures Pow2(32) == WORD
  {
    SmallPowers();
    Pow2Adds(8, 8);
    Pow2Adds(16, 16);
  }

  lemma {:induction false} Associate(a: int, b: int, c: int)
    ensures a * b * c == a * (b * c)
  {
  }

  /** x * w modulo a multiple t * k of t = m * w is some multiple of t, plus the shifted remainder. */
  lemma {:induction false} ShiftedWord(x: nat, m: nat, w: nat, k: nat) returns (room: int)
    requires m > 0 && w > 0 && k > 0 && m * w > 0 && m * w * k > 0
    ensures x * w % (m * w * k) == room * (m * w) + x % m * w
  {
    var t := m * w;
    var lost := x * w / (t * k);
    room := x / m - lost * k;
    Distribute(x / m * m, x % m, w);
    Associate(x / m, m, w);
    Associate(lost, k, t);
    Distribute(x / m, lost * k, t);
    assert t * k == k * t;
  }

  /** Multiplying by w, dropping multiples of m * w * k and adding low bits keeps x mod m. */
  lemma {:induction false} ShiftedRemainder(x: nat, m: nat, w: nat, k: nat, low: nat)
    requires m > 0 && w > 0 && k > 0 && low < w && m * w > 0 && m * w * k > 0
    ensures (x * w % (m * w * k) + low) % (m * w) == x % m * w + low
    ensures x * w % (m * w * k) + low < m * w * k
  {
    var t, r := m * w, x % m;
    var room := ShiftedWord(x, m, w, k);
    MulMonotone(r + 1, m, w);
    Distribute(r, 1, w);
    DivModUnique(room * t + r * w + low, room, r * w + low, t);
    if room >= k {
      MulMonotone(k, room, t);
    }
    MulMonotone(room + 1, k, t);
    Distribute(room, 1, t);
    assert t * k == k * t;
  }

  /** Shifting in low bits: only the low n bits of the word are ever meaningful. */
  lemma {:induction false} ShiftIn(value: nat, n: nat, width: nat, low: nat)
    requires n + width <= 12 && low < Pow2(width)
    ensures Shl(value, width) + low < WORD
    ensures (Shl(value, width) + low) % Pow2(n + width) == value % Pow2(n) * Pow2(width) + low
  {
    Pow2Adds(n, width);
    Pow2Adds(n + width, 32 - (n + width));
    WordPower();
    assert Pow2(n) * Pow2(width) == Pow2(n + width);
    ShiftedRemainder(value, Pow2(n), Pow2(width), Pow2(32 - (n + width)), low);
  }

  /** Reading the top `width` of the low n bits, and what remains below them. */
  lemma {:induction false} ShiftOut(value: nat, n: nat, width: nat)
    requires width <= n
    ensures value % Pow2(n) == value / Pow2(n - width) % Pow2(width) * Pow2(n - width) + value % Pow2(n - width)
  {
    Pow2Adds(width, n - width);
    SplitRemainder(value, Pow2(width), Pow2(n - width));
  }

  lemma {:induction false} SplitRemainder(x: nat, h: nat, l: nat)
    requires h > 0 && l > 0
    ensures x % (h * l) == x / l % h * l + x % l
  {
    var a := x / l;
    assert a * l == (a / h * h + a % h) * l;
    assert (a / h * h + a % h) * l == a / h * (h * l) + a % h * l by {
      assert a / h * h * l == a / h * (h * l);
    }
    MulMonotone(a % h + 1, h, l);
    assert (a % h + 1) * l == a % h * l + l;
    DivModUnique(x, a / h, a % h * l + x % l, h * l);
  }

  /** The pending bits: the low n bits of the word. */
  predicate Holds(value: nat, n: nat, pending: Bits) {
    |pending| == n && ValueOf(pending) == value % Pow2(n)
  }

  lemma {:induction false} HoldsShiftIn(value: nat, n: nat, width: nat, low: nat, pending: Bits)
    requires Holds(value, n, pending)
    requires (width == 8 && n < 5 && low < 256) || (width == 5 && n < 8 && low < 32)
    ensures Holds(Shl(value, width) + low, n + width, pending + BitsOf(low, width))
    ensures Shl(value, width) + low < WORD
  {
    SmallPowers();
    ShiftIn(value, n, width, low);
    ValueOfConcat(pending, BitsOf(low, width));
    ValueOfBits(low, width);
  }

  lemma {:induction false} HoldsShiftOut(value: nat, n: nat, width: nat, pending: Bits)
    requires Holds(value, n, pending) && (width == 5 || width == 8) && width <= n <= 12
    ensures ValueOf(pending[..width]) == value / Pow2(n - width) % Pow2(width)
    ensures Holds(value, n - width, pending[width..])
  {
    var high, rest := pending[..width], pending[width..];
    assert pending == high + rest;
    ValueOfConcat(high, rest);
    ShiftOut(value, n, width);
    var x, m := value % Pow2(n), Pow2(n - width);
    DivModUnique(x, ValueOf(high), ValueOf(rest), m);
    DivModUnique(x, value / m % Pow2(width), value % m, m);
  }

  // ----------------------------------------------------------------- methods

  /** One byte is taken in and the inner loop writes every full group. */
  method Absorb(value0: nat, bits0: nat, byte: Byte, ghost pending0: Bits, ghost rest: Bits)
    returns (out: string, value: nat, bits: nat, ghost pending: Bits)
    requires bits0 < 5 && Holds(value0, bits0, pending0)
    ensures bits < 5 && value < WORD && Holds(value, bits, pending)
    ensures out + Groups(pending + rest) == Groups(pending0 + BitsOf(byte, 8) + rest)
  {
    HoldsShiftIn(value0, bits0, 8, byte, pending0);
    value, bits, out := Shl(value0, 8) + byte, bits0 + 8, "";
    pending := pending0 + BitsOf(byte, 8);
    while bits >= 5
      invariant bits <= 12 && value < WORD && Holds(value, bits, pending)
      invariant out + Groups(pending + rest) == Groups(pending0 + BitsOf(byte, 8) + rest)
    {
      GroupOut(value, bits, pending, rest);
      out := out + [Symbol(value / Pow2(bits - 5) % 32)];
      bits := bits - 5;
      pending := pending[5..];
    }
  }

  /** The next group is the symbol that the loop writes, and the rest is still held. */
  lemma {:induction false} GroupOut(value: nat, bits: nat, pending: Bits, rest: Bits)
    requires 5 <= bits <= 12 && Holds(value, bits, pending)
    ensures Holds(value, bits - 5, pending[5..])
    ensures Groups(pending + rest) == [Symbol(value / Pow2(bits - 5) % 32)] + Groups(pending[5..] + rest)
  {
    HoldsShiftOut(value, bits, 5, pending);
    SmallPowers();
    QuintetIsValue(pending[..5]);
    GroupsStep(pending, rest);
  }

  lemma {:induction false} GroupsStep(pending: Bits, rest: Bits)
    requires |pending| >= 5
    ensures Groups(pending + rest) == [Symbol(QuintetOf(pending[..5]))] + Groups(pending[5..] + rest)
  {
    assert (pending + rest)[..5] == pending[..5] && (pending + rest)[5..] == pending[5..] + rest;
  }

  lemma {:induction false} Extend<T>(out: seq<T>, more: seq<T>, left: seq<T>, all: seq<T>)
    requires more + left == all
    ensures out + all == out + more + left
  {
  }

  lemma {:induction false} NextByte(pending: Bits, buf: seq<Byte>, i: nat)
    requires i < |buf|
    ensures pending + ByteBits(buf[i..]) == pending + BitsOf(buf[i], 8) + ByteBits(buf[i + 1..])
  {
    assert buf[i..][1..] == buf[i + 1..];
  }

  /** base32Encode. */
  method Encode(buf: seq<Byte>) returns (out: string)
    ensures out == Encoded(buf)
  {
    var bits: nat, value: nat := 0, 0;
    out := "";
    ghost var pending: Bits := [];
    assert pending + ByteBits(buf[0..]) == ByteBits(buf);
    for i := 0 to |buf|
      invariant bits < 5 && value < WORD && Holds(value, bits, pending)
      invariant out + Groups(pending + ByteBits(buf[i..])) == Encoded(buf)
    {
      ghost var before, rest := pending, ByteBits(buf[i + 1..]);
      NextByte(pending, buf, i);
      var more;
      more, value, bits, pending := Absorb(value, bits, buf[i], pending, rest);
      Extend(out, more, Groups(pending + rest), Groups(before + ByteBits(buf[i..])));
      out := out + more;
    }
    assert pending + ByteBits(buf[|buf|..]) == pending;
    if bits > 0 {
      LastGroup(value, bits, pending);
      out := out + [Symbol(Shl(value, 5 - bits) % 32)];
    }
  }

  lemma {:induction false} LastGroup(value: nat, bits: nat, pending: Bits)
    requires 0 < bits < 5 && Holds(value, bits, pending)
    ensures QuintetOf(pending + Zeros(5 - bits)) == Shl(value, 5 - bits) % 32
  {
    SmallPowers();
    ValueOfConcat(pending, Zeros(5 - bits));
    ValueOfZeros(5 - bits);
    ShiftIn(value, bits, 5 - bits, 0);
    QuintetIsValue(pending + Zeros(5 - bits));
  }

  lemma {:induction false} BytesStep(pending: Bits, rest: Bits)
    requires |pending| >= 8
    ensures Bytes(pending + rest) == [ByteOf(pending[..8])] + Bytes(pending[8..] + rest)
  {
    assert (pending + rest)[..8] == pending[..8] && (pending + rest)[8..] == pending[8..] + rest;
  }

  /** One symbol is taken in and a full byte, if there is one, is written. */
  method AbsorbSymbol(value0: nat, bits0: nat, idx: Quintet, ghost pending0: Bits, ghost rest: Bits)
    returns (out: seq<Byte>, value: nat, bits: nat, ghost pending: Bits)
    requires bits0 < 8 && Holds(value0, bits0, pending0)
    ensures bits < 8 && value < WORD && Holds(value, bits, pending)
    ensures out + Bytes(pending + rest) == Bytes(pending0 + BitsOf(idx, 5) + rest)
  {
    HoldsShiftIn(value0, bits0, 5, idx, pending0);
    value, bits, out := Shl(value0, 5) + idx, bits0 + 5, [];
    pending := pending0 + BitsOf(idx, 5);
    if bits >= 8 {
      HoldsShiftOut(value, bits, 8, pending);
      SmallPowers();
      ByteIsValue(pending[..8]);
      BytesStep(pending, rest);
      out := [value / Pow2(bits - 8) % 256];
      bits := bits - 8;
      pending := pending[8..];
    }
  }

  lemma {:induction false} NextSymbol(pending: Bits, s: string, i: nat)
    requires i < |s| && IndexOf(s[i]).Some?
    ensures pending + SymbolBits(s[i..]) == pending + BitsOf(IndexOf(s[i]).value, 5) + SymbolBits(s[i + 1..])
  {
    assert s[i..][1..] == s[i + 1..];
  }

  /** The loop of base32Decode over the cleaned text. */
  method DecodeClean(clean: string) returns (r: Option<seq<Byte>>)
    ensures r == if InAlphabet(clean) then Some(Bytes(SymbolBits(clean))) else None
  {
    var bits: nat, value: nat := 0, 0;
    var out: seq<Byte> := [];
    ghost var pending: Bits := [];
    assert clean[0..] == clean && pending + SymbolBits(clean) == SymbolBits(clean);
    for i := 0 to |clean|
      invariant bits < 8 && Holds(value, bits, pending)
      invariant forall k :: 0 <= k < i ==> IndexOf(clean[k]).Some?
      invariant out + Bytes(pending + SymbolBits(clean[i..])) == Bytes(SymbolBits(clean))
    {
      var found := IndexOf(clean[i]);
      if found.None? {
        return None;
      }
      ghost var before, rest := pending, SymbolBits(clean[i + 1..]);
      NextSymbol(pending, clean, i);
      var more;
      more, value, bits, pending := AbsorbSymbol(value, bits, found.value, pending, rest);
      Extend(out, more, Bytes(pending + rest), Bytes(before + SymbolBits(clean[i..])));
      out := out + more;
    }
    assert pending + SymbolBits(clean[|clean|..]) == pending && out + [] == out;
    return Some(out);
  }

  predicate OnlySymbols(s: string) {
    forall i :: 0 <= i < |s| ==> s[i] in ALPHABET
  }

  /** A text is refused for a character outside the alphabet and for nothing else. */
  lemma {:induction false} RefusedIffOutside(s: string)
    ensures InAlphabet(s) <==> OnlySymbols(s)
  {
    forall i | 0 <= i < |s| ensures IndexOf(s[i]).Some? <==> s[i] in ALPHABET {
      IndexOfIsPosition(s[i]);
    }
  }

  /** base32Decode; None stands for the thrown error. */
  method Decode(s: string) returns (r: Option<seq<Byte>>)
    ensures r == Decoded(s)
    ensures r.Some? <==> OnlySymbols(StripPadding(UpperAll(s)))
  {
    RefusedIffOutside(StripPadding(UpperAll(s)));
    r := DecodeClean(StripPadding(UpperAll(s)));
  }

  // -------------------------------------------------------------- round trip

  lemma {:induction false} BytesOfByteBits(buf: seq<Byte>, tail: Bits)
    requires |tail| < 8
    ensures Bytes(ByteBits(buf) + tail) == buf
  {
    if buf != [] {
      var bits := ByteBits(buf) + tail;
      SmallPowers();
      ValueOfBits(buf[0], 8);
      ByteIsValue(BitsOf(buf[0], 8));
      assert bits[..8] == BitsOf(buf[0], 8);
      assert bits[8..] == ByteBits(buf[1..]) + tail;
      BytesOfByteBits(buf[1..], tail);
    }
  }

  lemma {:induction false} GroupsAreSymbols(bits: Bits)
    ensures InAlphabet(Groups(bits))
  {
    if bits == [] {
    } else if |bits| < 5 {
      IndexOfSymbol(QuintetOf(bits + Zeros(5 - |bits|)));
    } else {
      IndexOfSymbol(QuintetOf(bits[..5]));
      GroupsAreSymbols(bits[5..]);
    }
  }

  lemma {:induction false} SymbolBitsPush(group: Bits, tail: string)
    requires |group| == 5
    ensures SymbolBits([Symbol(QuintetOf(group))] + tail) == group + SymbolBits(tail)
  {
    var s := [Symbol(QuintetOf(group))] + tail;
    IndexOfSymbol(QuintetOf(group));
    QuintetIsValue(group);
    BitsOfValue(group);
    assert s[1..] == tail;
  }

  lemma {:induction false} ShortGroup(bits: Bits)
    requires 0 < |bits| < 5
    ensures SymbolBits(Groups(bits)) == bits + Zeros(5 - |bits|)
  {
    var group := bits + Zeros(5 - |bits|);
    assert Groups(bits) == [Symbol(QuintetOf(group))] + "";
    SymbolBitsPush(group, "");
  }

  lemma {:induction false} PrependGroup(head: Bits, text: string, rest: Bits, fill: Bits)
    requires |head| == 5 && SymbolBits(text) == rest + fill
    ensures SymbolBits([Symbol(QuintetOf(head))] + text) == head + rest + fill
  {
    SymbolBitsPush(head, text);
  }

  /** The symbols of a bit string give it back, followed by fewer than five zeros. */
  lemma {:induction false} SymbolBitsOfGroups(bits: Bits) returns (fill: Bits)
    ensures |fill| < 5 && SymbolBits(Groups(bits)) == bits + fill
  {
    if bits == [] {
      fill := [];
    } else if |bits| < 5 {
      fill := Zeros(5 - |bits|);
      ShortGroup(bits);
    } else {
      fill := SymbolBitsOfGroups(bits[5..]);
      PrependGroup(bits[..5], Groups(bits[5..]), bits[5..], fill);
      assert bits == bits[..5] + bits[5..];
    }
  }

  lemma {:induction false} EncodedIsClean(buf: seq<Byte>)
    ensures StripPadding(UpperAll(Encoded(buf))) == Encoded(buf)
  {
    var text := Encoded(buf);
    GroupsAreSymbols(ByteBits(buf));
    forall i | 0 <= i < |text|
      ensures Upper(text[i]) == [text[i]] && text[i] != '='
    {
      assert IndexOf(text[i]).Some?;
    }
    UpperStays(text);
  }

  /** Decoding undoes encoding, for every byte sequence. */
  lemma {:induction false} DecodeEncode(buf: seq<Byte>)
    ensures Decoded(Encoded(buf)) == Some(buf)
  {
    EncodedIsClean(buf);
    GroupsAreSymbols(ByteBits(buf));
    var fill := SymbolBitsOfGroups(ByteBits(buf));
    BytesOfByteBits(buf, fill);
  }

  /** The same letter in lower case. */
  predicate IsLowerOf(c: char, upper: char) {
    'A' <= upper <= 'Z' && c as int == upper as int + 32
  }

  function Padding(n: nat): (p: string)
    ensures |p| == n
  {
    seq(n, _ => '=')
  }

  /** The text with any of its letters in lower case. */
  predicate SpelledLike(text: string, upper: string) {
    |text| == |upper| && forall i :: 0 <= i < |text| ==> text[i] == upper[i] || IsLowerOf(text[i], upper[i])
  }

  lemma {:induction false} UpperOfSpelling(text: string, upper: string)
    requires SpelledLike(text, upper)
    requires forall i :: 0 <= i < |upper| ==> Upper(upper[i]) == [upper[i]]
    ensures UpperAll(text) == upper
  {
    if text != "" {
      assert forall i :: 0 <= i < |text| - 1 ==> text[1..][i] == text[i + 1] && upper[1..][i] == upper[i + 1];
      assert Upper(text[0]) == [upper[0]];
      UpperOfSpelling(text[1..], upper[1..]);
      assert upper == [upper[0]] + upper[1..];
    }
  }

  lemma {:induction false} PaddingIsStripped(s: string, n: nat)
    requires s == "" || s[|s| - 1] != '='
    ensures StripPadding(s + Padding(n)) == s
  {
    if n == 0 {
      assert s + Padding(0) == s;
    } else {
      assert (s + Padding(n))[..|s| + n - 1] == s + Padding(n - 1);
      PaddingIsStripped(s, n - 1);
    }
  }

  lemma {:induction false} UpperOfConcat(s: string, t: string)
    ensures UpperAll(s + t) == UpperAll(s) + UpperAll(t)
  {
    if s == "" {
      assert s + t == t;
    } else {
      assert (s + t)[1..] == s[1..] + t;
      UpperOfConcat(s[1..], t);
    }
  }

  /** Letters in lower case and padding at the end make no difference to what is decoded. */
  lemma {:induction false} DecodeIsLenient(buf: seq<Byte>, text: string, n: nat)
    requires SpelledLike(text, Encoded(buf))
    ensures Decoded(text + Padding(n)) == Some(buf)
  {
    var clean := Encoded(buf);
    GroupsAreSymbols(ByteBits(buf));
    forall i | 0 <= i < |clean| ensures Upper(clean[i]) == [clean[i]] && clean[i] != '=' {
      assert IndexOf(clean[i]).Some?;
    }
    UpperOfConcat(text, Padding(n));
    UpperOfSpelling(text, clean);
    UpperStays(Padding(n));
    PaddingIsStripped(clean, n);
    DecodeEncode(buf);
    EncodedIsClean(buf);
  }
}
