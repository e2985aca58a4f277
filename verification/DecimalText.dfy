/**
 * The decimal text of an amount: Money.fromDecimal and Money.toDecimalString
 * (packages/money/src/money.ts).
 */
module DecimalText {
  import opened Prelude
  import opened Money

  // --------------------------------------------------------------- numerals

  predicate IsDigit(c: char) {
    '0' <= c <= '9'
  }

  predicate AllDigits(s: string) {
    forall i :: 0 <= i < |s| ==> IsDigit(s[i])
  }

  function DigitChar(d: nat): char
    requires d < 10
  {
    ('0' as int + d) as char
  }

  function DigitValue(c: char): nat
    requires IsDigit(c)
  {
    c as int - '0' as int
  }

  /** BigInt.prototype.toString on a non-negative value. */
  function Numeral(n: nat): (s: string)
    ensures |s| >= 1 && AllDigits(s)
  {
    if n < 10 then [DigitChar(n)] else Numeral(n / 10) + [DigitChar(n % 10)]
  }

  lemma {:induction false} TenTimes(x: nat, y: nat)
    ensures 10 * (x * y) == (10 * x) * y
  {
  }

  lemma {:induction false} Pow10Sum(j: nat, k: nat)
    ensures Pow10(j + k) == Pow10(j) * Pow10(k)
  {
    if j > 0 {
      Pow10Sum(j - 1, k);
      assert Pow10(j) == 10 * Pow10(j - 1) && Pow10(j + k) == 10 * Pow10(j - 1 + k);
      TenTimes(Pow10(j - 1), Pow10(k));
    }
  }

  lemma {:induction false} NumeralIsShort(n: nat, k: nat)
    requires k >= 1 && n < Pow10(k)
    ensures |Numeral(n)| <= k
  {
    if n >= 10 {
      assert k > 1 && Pow10(k) == 10 * Pow10(k - 1);
      NumeralIsShort(n / 10, k - 1);
    }
  }

  /** BigInt of a string of digits; the empty string denotes zero. */
  function Parse(s: string): nat
    requires AllDigits(s)
  {
    if s == "" then 0 else Parse(s[..|s| - 1]) * 10 + DigitValue(s[|s| - 1])
  }

  function Pow10(k: nat): nat {
    if k == 0 then 1 else 10 * Pow10(k - 1)
  }

  function Zeros(k: nat): (s: string)
    ensures |s| == k && AllDigits(s) && forall i :: 0 <= i < k ==> s[i] == '0'
  {
    seq(k, _ => '0')
  }

  function PadStart(s: string, width: nat): string {
    if |s| >= width then s else Zeros(width - |s|) + s
  }

  function PadEnd(s: string, width: nat): string {
    if |s| >= width then s else s + Zeros(width - |s|)
  }

  lemma {:induction false} ParsePush(s: string, c: char)
    requires AllDigits(s) && IsDigit(c)
    ensures AllDigits(s + [c]) && Parse(s + [c]) == Parse(s) * 10 + DigitValue(c)
  {
    assert (s + [c])[..|s|] == s;
  }

  lemma {:induction false} ParseNumeral(n: nat)
    ensures Parse(Numeral(n)) == n
    ensures n > 0 ==> Numeral(n)[0] != '0'
  {
    if n < 10 {
      assert Numeral(n) == "" + [DigitChar(n)];
      ParsePush("", DigitChar(n));
    } else {
      var q, d := n / 10, n % 10;
      ParseNumeral(q);
      ParsePush(Numeral(q), DigitChar(d));
      assert Numeral(n) == Numeral(q) + [DigitChar(d)];
    }
  }

  lemma {:induction false} TimesTen(a: nat, b: nat)
    ensures a * (10 * b) == a * b * 10
  {
  }

  lemma {:induction false} ParseConcat(s: string, t: string)
    requires AllDigits(s) && AllDigits(t)
    ensures AllDigits(s + t) && Parse(s + t) == Parse(s) * Pow10(|t|) + Parse(t)
  {
    if t == "" {
      assert s + t == s;
    } else {
      var front, c := t[..|t| - 1], t[|t| - 1];
      ParseConcat(s, front);
      assert s + t == (s + front) + [c];
      ParsePush(s + front, c);
      TimesTen(Parse(s), Pow10(|front|));
    }
  }

  lemma {:induction false} ParseZeros(k: nat)
    ensures Parse(Zeros(k)) == 0
  {
    if k > 0 {
      assert Zeros(k)[..k - 1] == Zeros(k - 1);
      ParseZeros(k - 1);
    }
  }

  lemma {:induction false} NumeralPush(q: nat, d: nat)
    requires q > 0 && d < 10
    ensures Numeral(q * 10 + d) == Numeral(q) + [DigitChar(d)]
  {
    var n := q * 10 + d;
    assert n / 10 == q && n % 10 == d;
  }

  lemma {:induction false} NumeralOfParse(s: string)
    requires AllDigits(s) && s != "" && (s == "0" || s[0] != '0')
    ensures Numeral(Parse(s)) == s
    ensures s != "0" ==> Parse(s) > 0
  {
    var n := |s| - 1;
    if n == 0 {
      assert s == "" + [s[0]];
      ParsePush("", s[0]);
    } else {
      NumeralOfParse(s[..n]);
      NumeralPush(Parse(s[..n]), DigitValue(s[n]));
      assert s == s[..n] + [DigitChar(DigitValue(s[n]))];
    }
  }

  // ------------------------------------------------------------- the pattern

  /** White space and line terminators removed by String.prototype.trim. */
  predicate IsSpace(c: char) {
    || c in {'\t', '\n', '\r', ' ', '\U{0B}', '\U{0C}', '\U{A0}', '\U{FEFF}', '\U{1680}'}
    || '\U{2000}' <= c <= '\U{200A}'
    || c in {'\U{2028}', '\U{2029}', '\U{202F}', '\U{205F}', '\U{3000}'}
  }

  function Trim(s: string): string {
    if s != "" && IsSpace(s[0]) then Trim(s[1..])
    else if s != "" && IsSpace(s[|s| - 1]) then Trim(s[..|s| - 1])
    else s
  }

  predicate AllSpace(s: string) {
    forall i :: 0 <= i < |s| ==> IsSpace(s[i])
  }

  /** Trimming removes white space at both ends, all of it, and nothing else. */
  lemma {:induction false} TrimStrips(s: string) returns (front: string, back: string)
    ensures s == front + Trim(s) + back && AllSpace(front) && AllSpace(back)
    ensures Trim(s) != "" ==> !IsSpace(Trim(s)[0]) && !IsSpace(Trim(s)[|Trim(s)| - 1])
  {
    front, back := "", "";
    if s != "" && IsSpace(s[0]) {
      front, back := TrimStrips(s[1..]);
      assert s == [s[0]] + s[1..];
      front := [s[0]] + front;
    } else if s != "" && IsSpace(s[|s| - 1]) {
      front, back := TrimStrips(s[..|s| - 1]);
      assert s == s[..|s| - 1] + [s[|s| - 1]];
      back := back + [s[|s| - 1]];
    }
  }

  datatype Parts = Parts(negative: bool, whole: string, frac: string)

  /** How many digits s begins with. */
  function DigitRun(s: string): (k: nat)
    ensures k <= |s| && AllDigits(s[..k])
    ensures k < |s| ==> !IsDigit(s[k])
  {
    if s != "" && IsDigit(s[0]) then 1 + DigitRun(s[1..]) else 0
  }

  /** Digits, and optionally a point and more digits. */
  function MatchBody(negative: bool, body: string): (m: Option<Parts>)
    ensures m.Some? ==> AllDigits(m.value.whole) && AllDigits(m.value.frac)
  {
    var k := DigitRun(body);
    var rest := body[k..];
    if k == 0 then None
    else if rest == "" then Some(Parts(negative, body[..k], ""))
    else if rest[0] == '.' && |rest| > 1 && AllDigits(rest[1..]) then Some(Parts(negative, body[..k], rest[1..]))
    else None
  }

  /** The pattern of fromDecimal. */
  function Match(t: string): (m: Option<Parts>)
    ensures m.Some? ==> AllDigits(m.value.whole) && AllDigits(m.value.frac)
  {
    if t != "" && t[0] == '-' then MatchBody(true, t[1..]) else MatchBody(false, t)
  }

  function SpellBody(p: Parts): string {
    if p.frac == "" then p.whole else p.whole + ['.'] + p.frac
  }

  function Spell(p: Parts): string {
    if p.negative then ['-'] + SpellBody(p) else SpellBody(p)
  }

  predicate WellSpelled(p: Parts) {
    p.whole != "" && AllDigits(p.whole) && AllDigits(p.frac)
  }

  lemma {:induction false} DigitRunOf(s: string, rest: string)
    requires AllDigits(s) && (rest == "" || !IsDigit(rest[0]))
    ensures DigitRun(s + rest) == |s|
  {
    if s == "" {
      assert s + rest == rest;
    } else {
      assert (s + rest)[1..] == s[1..] + rest;
      DigitRunOf(s[1..], rest);
    }
  }

  lemma {:induction false} BodyIsSound(negative: bool, body: string)
    requires MatchBody(negative, body).Some?
    ensures var p := MatchBody(negative, body).value;
            p.negative == negative && WellSpelled(p) && body == SpellBody(p)
  {
    var p := MatchBody(negative, body).value;
    var rest := body[DigitRun(body)..];
    assert body == p.whole + rest;
    if rest != "" {
      assert rest == ['.'] + p.frac;
    }
  }

  lemma {:induction false} BodyIsComplete(p: Parts)
    requires WellSpelled(p)
    ensures MatchBody(p.negative, SpellBody(p)) == Some(p)
    ensures SpellBody(p)[0] != '-'
  {
    var rest := if p.frac == "" then "" else ['.'] + p.frac;
    assert SpellBody(p) == p.whole + rest;
    DigitRunOf(p.whole, rest);
    assert SpellBody(p)[|p.whole|..] == rest && SpellBody(p)[..|p.whole|] == p.whole;
    if p.frac != "" {
      assert rest[1..] == p.frac;
    }
  }

  /** The pattern accepts exactly the spellings, and reads back the parts they spell. */
  lemma {:induction false} MatchReadsSpelling(t: string, p: Parts)
    ensures Match(t) == Some(p) <==> WellSpelled(p) && t == Spell(p)
  {
    if Match(t).Some? {
      if t[0] == '-' {
        BodyIsSound(true, t[1..]);
        assert t == ['-'] + t[1..];
      } else {
        BodyIsSound(false, t);
      }
    }
    if WellSpelled(p) {
      BodyIsComplete(p);
      assert (['-'] + SpellBody(p))[1..] == SpellBody(p);
    }
  }

  // ------------------------------------------------------------- conversion

  function Signed(negative: bool, magnitude: nat): int {
    if negative then 0 - magnitude else magnitude
  }

  function ValueOf(p: Parts, exponent: nat): int
    requires AllDigits(p.whole) && AllDigits(p.frac)
  {
    Signed(p.negative, Parse(p.whole) * Pow10(exponent) + Parse(PadEnd(p.frac, exponent)))
  }

  /** Money.fromDecimal. */
  function FromDecimal(text: string, currency: Currency): Result<Money, MoneyError> {
    match Match(Trim(text))
    case None => Err(InvalidAmount)
    case Some(p) =>
      if |p.frac| > currency.Exponent() then Err(Precision)
      else Ok(Money(ValueOf(p, currency.Exponent()), currency))
  }

  /** Money.toDecimalString. */
  function ToDecimalString(m: Money): string {
    var exponent := m.currency.Exponent();
    var negative := m.amount < 0;
    var abs := if negative then -m.amount else m.amount;
    var digits := PadStart(Numeral(abs), exponent + 1);
    var whole := digits[..|digits| - exponent];
    var frac := if exponent > 0 then ['.'] + digits[|digits| - exponent..] else "";
    (if negative then ['-'] else "") + (if whole == "" then "0" else whole) + frac
  }

  function DigitsOf(m: Money): (digits: string)
    ensures AllDigits(digits) && |digits| > m.currency.Exponent()
  {
    PadStart(Numeral(Abs(m.amount)), m.currency.Exponent() + 1)
  }

  /** The parts that toDecimalString spells. */
  function PartsOf(m: Money): (p: Parts)
    ensures WellSpelled(p) && |p.frac| == m.currency.Exponent()
  {
    var digits, exponent := DigitsOf(m), m.currency.Exponent();
    Parts(m.amount < 0, digits[..|digits| - exponent], digits[|digits| - exponent..])
  }

  lemma {:induction false} SpellIsConcatenation(p: Parts)
    ensures Spell(p) == (if p.negative then ['-'] else "") + p.whole + if p.frac == "" then "" else ['.'] + p.frac
  {
    assert "" + p.whole == p.whole && p.whole + "" == p.whole;
  }

  lemma {:induction false} ToDecimalSpells(m: Money)
    ensures ToDecimalString(m) == Spell(PartsOf(m))
  {
    var p := PartsOf(m);
    var tail := if p.frac == "" then "" else ['.'] + p.frac;
    SpellIsConcatenation(p);
    assert ToDecimalString(m) == (if p.negative then ['-'] else "") + p.whole + tail;
  }

  lemma {:induction false} NothingToTrim(p: Parts)
    requires WellSpelled(p)
    ensures Trim(Spell(p)) == Spell(p)
  {
    var t := Spell(p);
    assert t[0] == '-' || t[0] == p.whole[0];
    assert t[|t| - 1] == if p.frac == "" then p.whole[|p.whole| - 1] else p.frac[|p.frac| - 1];
  }

  lemma {:induction false} ValueOfDigits(negative: bool, whole: string, frac: string)
    requires AllDigits(whole) && AllDigits(frac)
    ensures AllDigits(whole + frac)
    ensures ValueOf(Parts(negative, whole, frac), |frac|) == Signed(negative, Parse(whole + frac))
  {
    ParseConcat(whole, frac);
  }

  lemma {:induction false} Scale(w: nat, f: nat, low: nat, high: nat, scale: nat, padded: nat, digits: nat)
    requires scale == high * low && padded == f * high && digits == w * low + f
    ensures (w * scale + padded) * low == digits * scale
  {
    Distribute(w * scale, padded, low);
    Distribute(w * low, f, scale);
    Commute(w, scale, low);
    Commute(f, high, low);
    assert f * (low * high) == f * (high * low);
  }

  lemma {:induction false} Commute(a: nat, b: nat, c: nat)
    ensures (a * b) * c == (a * c) * b == a * (c * b)
  {
  }

  /** The padded decimals. */
  lemma {:induction false} PaddedValue(p: Parts, exponent: nat)
    requires WellSpelled(p) && |p.frac| <= exponent
    ensures AllDigits(PadEnd(p.frac, exponent))
    ensures Parse(PadEnd(p.frac, exponent)) == Parse(p.frac) * Pow10(exponent - |p.frac|)
  {
    var zeros := Zeros(exponent - |p.frac|);
    assert p.frac + "" == p.frac;
    assert PadEnd(p.frac, exponent) == p.frac + zeros;
    ParseConcat(p.frac, zeros);
    ParseZeros(|zeros|);
  }

  /** The amount read is the number that the digits spell, exactly, in the minor unit of the currency. */
  lemma {:induction false} ValueIsExact(p: Parts, exponent: nat)
    requires WellSpelled(p) && |p.frac| <= exponent
    ensures AllDigits(p.whole + p.frac)
    ensures Abs(ValueOf(p, exponent)) * Pow10(|p.frac|) == Parse(p.whole + p.frac) * Pow10(exponent)
    ensures p.negative ==> ValueOf(p, exponent) <= 0
    ensures !p.negative ==> ValueOf(p, exponent) >= 0
  {
    var w, f := Parse(p.whole), Parse(p.frac);
    PaddedValue(p, exponent);
    ParseConcat(p.whole, p.frac);
    Pow10Sum(exponent - |p.frac|, |p.frac|);
    MagnitudeOf(p, exponent);
    Scale(w, f, Pow10(|p.frac|), Pow10(exponent - |p.frac|), Pow10(exponent), Parse(PadEnd(p.frac, exponent)),
          Parse(p.whole + p.frac));
  }

  lemma {:induction false} MagnitudeOf(p: Parts, exponent: nat)
    requires AllDigits(p.whole) && AllDigits(p.frac)
    ensures var n := Parse(p.whole) * Pow10(exponent) + Parse(PadEnd(p.frac, exponent));
            n >= 0 && ValueOf(p, exponent) == if p.negative then -n else n
  {
  }

  lemma {:induction false} ParseDigitsOf(m: Money)
    ensures Parse(DigitsOf(m)) == Abs(m.amount)
  {
    var n, width := Abs(m.amount), m.currency.Exponent() + 1;
    ParseNumeral(n);
    if |Numeral(n)| < width {
      var pad := Zeros(width - |Numeral(n)|);
      ParseConcat(pad, Numeral(n));
      ParseZeros(|pad|);
    }
  }

  lemma {:induction false} ValueOfParts(m: Money)
    ensures ValueOf(PartsOf(m), m.currency.Exponent()) == m.amount
  {
    var p := PartsOf(m);
    ValueOfDigits(p.negative, p.whole, p.frac);
    assert p.whole + p.frac == DigitsOf(m);
    ParseDigitsOf(m);
  }

  lemma {:induction false} FromSpelling(t: string, p: Parts, currency: Currency)
    requires Trim(t) == t && Match(t) == Some(p) && |p.frac| <= currency.Exponent()
    ensures FromDecimal(t, currency) == Ok(Money(ValueOf(p, currency.Exponent()), currency))
  {
  }

  /**
   * fromDecimal reads exactly the texts that, trimmed, spell a number, and refuses one with
   * more decimals than the currency has.
   */
  lemma {:induction false} AcceptsIff(text: string, p: Parts, currency: Currency)
    requires WellSpelled(p) && Trim(text) == Spell(p)
    ensures FromDecimal(text, currency) ==
            if |p.frac| <= currency.Exponent() then Ok(Money(ValueOf(p, currency.Exponent()), currency)) else Err(Precision)
  {
    MatchReadsSpelling(Trim(text), p);
  }

  lemma {:induction false} RefusesOthers(text: string, currency: Currency)
    ensures FromDecimal(text, currency) == Err(InvalidAmount) <==> forall p: Parts :: WellSpelled(p) ==> Trim(text) != Spell(p)
  {
    var m := Match(Trim(text));
    if m.Some? {
      MatchReadsSpelling(Trim(text), m.value);
    } else {
      forall p: Parts | WellSpelled(p) ensures Trim(text) != Spell(p) {
        MatchReadsSpelling(Trim(text), p);
      }
    }
  }

  /** fromDecimal undoes toDecimalString, for every amount and every currency. */
  lemma {:induction false} FromToDecimal(m: Money)
    ensures FromDecimal(ToDecimalString(m), m.currency) == Ok(m)
  {
    var p := PartsOf(m);
    ToDecimalSpells(m);
    NothingToTrim(p);
    MatchReadsSpelling(Spell(p), p);
    ValueOfParts(m);
    FromSpelling(Spell(p), p, m.currency);
  }

  /** Texts with no redundant zero, every decimal of the currency, and no negative zero. */
  predicate Canonical(t: string, currency: Currency) {
    var m := Match(t);
    && m.Some?
    && |m.value.frac| == currency.Exponent()
    && (m.value.whole == "0" || m.value.whole[..1] != "0")
    && (m.value.negative ==> ValueOf(m.value, currency.Exponent()) != 0)
  }

  lemma {:induction false} PaddedWhole(whole: string)
    requires AllDigits(whole) && whole != "" && (whole == "0" || whole[0] != '0')
    ensures AllDigits(whole + "") && PadStart(Numeral(Parse(whole + "")), 1) == whole + ""
  {
    NumeralOfParse(whole);
    assert whole + "" == whole;
  }

  lemma {:induction false} PaddedNumeral(whole: string, frac: string)
    requires AllDigits(whole) && AllDigits(frac)
    requires whole != "" && (whole == "0" || whole[0] != '0')
    ensures AllDigits(whole + frac) && PadStart(Numeral(Parse(whole + frac)), |frac| + 1) == whole + frac
  {
    if frac == "" {
      PaddedWhole(whole);
    } else {
      var front, c := frac[..|frac| - 1], frac[|frac| - 1];
      PaddedNumeral(whole, front);
      PaddedPush(whole + front, c, |front| + 1);
      assert whole + frac == (whole + front) + [c];
    }
  }

  lemma {:induction false} PaddedPush(digits: string, c: char, width: nat)
    requires AllDigits(digits) && IsDigit(c) && width > 0
    requires PadStart(Numeral(Parse(digits)), width) == digits
    ensures AllDigits(digits + [c]) && PadStart(Numeral(Parse(digits + [c])), width + 1) == digits + [c]
  {
    ParsePush(digits, c);
    AppendDigit(Parse(digits), DigitValue(c), width);
    assert DigitChar(DigitValue(c)) == c;
  }

  /** Padding commutes with appending a digit. */
  lemma {:induction false} AppendDigit(n: nat, d: nat, width: nat)
    requires d < 10 && width > 0
    ensures PadStart(Numeral(n * 10 + d), width + 1) == PadStart(Numeral(n), width) + [DigitChar(d)]
  {
    if n == 0 {
      assert Zeros(width) == Zeros(width - 1) + ['0'];
    } else {
      NumeralPush(n, d);
    }
  }

  /** The canonical texts are exactly those that toDecimalString returns. */
  lemma {:induction false} CanonicalIsImage(t: string, currency: Currency)
    ensures Canonical(t, currency) <==> exists m: Money :: m.currency == currency && ToDecimalString(m) == t
  {
    if Canonical(t, currency) {
      CanonicalSpells(t, currency);
    }
    if exists m: Money :: m.currency == currency && ToDecimalString(m) == t {
      var m: Money :| m.currency == currency && ToDecimalString(m) == t;
      ImageIsCanonical(m);
    }
  }

  lemma {:induction false} CanonicalSpells(t: string, currency: Currency)
    requires Canonical(t, currency)
    ensures exists m: Money :: m.currency == currency && ToDecimalString(m) == t
  {
    var p := Match(t).value;
    MatchReadsSpelling(t, p);
    var m := Money(ValueOf(p, currency.Exponent()), currency);
    assert p.whole[..1] == [p.whole[0]];
    PartsAreRead(m, p);
    ToDecimalSpells(m);
    assert m.currency == currency && ToDecimalString(m) == t;
  }

  lemma {:induction false} PartsAreRead(m: Money, p: Parts)
    requires WellSpelled(p) && |p.frac| == m.currency.Exponent() && m.amount == ValueOf(p, |p.frac|)
    requires (p.whole == "0" || p.whole[0] != '0') && (p.negative ==> m.amount != 0)
    ensures PartsOf(m) == p
  {
    PaddedNumeral(p.whole, p.frac);
    ValueOfDigits(p.negative, p.whole, p.frac);
    var digits := p.whole + p.frac;
    assert Abs(m.amount) == Parse(digits);
    assert DigitsOf(m) == digits;
    assert digits[..|digits| - |p.frac|] == p.whole && digits[|digits| - |p.frac|..] == p.frac;
  }

  lemma {:induction false} WholeIsPlain(m: Money)
    ensures PartsOf(m).whole == "0" || PartsOf(m).whole[0] != '0'
  {
    var digits, numeral := DigitsOf(m), Numeral(Abs(m.amount));
    ParseNumeral(Abs(m.amount));
    if |numeral| <= m.currency.Exponent() {
      assert digits[0] == '0' && |digits| == m.currency.Exponent() + 1;
      assert PartsOf(m).whole == [digits[0]];
    } else {
      assert digits == numeral;
      if m.amount == 0 {
        assert PartsOf(m).whole == "0";
      }
    }
  }

  lemma {:induction false} ImageIsCanonical(m: Money)
    ensures Canonical(ToDecimalString(m), m.currency)
  {
    var p := PartsOf(m);
    ToDecimalSpells(m);
    MatchReadsSpelling(Spell(p), p);
    ValueOfParts(m);
    WholeIsPlain(m);
    assert p.whole[..1] == [p.whole[0]];
  }

  /**
   * All accepted spellings of one amount have the same canonical text, and a text is
   * its own canonical text exactly when it is canonical.
   */
  lemma {:induction false} SpellingsShareCanonicalText(s: string, t: string, currency: Currency)
    requires FromDecimal(s, currency).Ok? && FromDecimal(t, currency).Ok?
    ensures ToDecimalString(FromDecimal(s, currency).value) == ToDecimalString(FromDecimal(t, currency).value)
       <==> FromDecimal(s, currency) == FromDecimal(t, currency)
    ensures Canonical(s, currency) <==> ToDecimalString(FromDecimal(s, currency).value) == s
  {
    var v, w := FromDecimal(s, currency).value, FromDecimal(t, currency).value;
    FromToDecimal(v);
    FromToDecimal(w);
    CanonicalIsImage(s, currency);
    if Canonical(s, currency) {
      var m: Money :| m.currency == currency && ToDecimalString(m) == s;
      FromToDecimal(m);
    }
  }
}
