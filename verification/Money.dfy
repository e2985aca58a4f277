/**
 * Money in minor units: lossless allocation, the flat fee built on it, and the
 * decimal text of an amount (packages/money, packages/payments-core/src/pricing.ts).
 */
module Money {
  import opened Prelude

  /** The registry of supported currencies with their ISO 4217 exponents. */
  datatype Currency = USD | EUR | GBP | MXN | BRL | COP | ARS | PEN | CLP | JPY {
    function Exponent(): nat {
      if CLP? || JPY? then 0 else 2
    }
  }

  datatype Money = Money(amount: int, currency: Currency)

  datatype MoneyError = InvalidAmount | Precision

  // ------------------------------------------------------------ allocation

  const MAX_SAFE_INTEGER: int := 0x1F_FFFF_FFFF_FFFF

  datatype AllocationError = NoRatios | BadRatio | AllZero

  /** Division of BigInts truncates toward zero. */
  function TruncDiv(a: int, b: int): int
    requires b > 0
  {
    if a >= 0 then a / b else -(-a / b)
  }

  function Identity(): int -> int {
    x => x
  }

  function Total(parts: seq<int>): int {
    Sum(parts, Identity())
  }

  predicate SafeRatio(r: int) {
    0 <= r <= MAX_SAFE_INTEGER
  }

  /** The part of `amount` that ratio r of `total` gets before the residue is dealt out. */
  function BaseShare(amount: int, r: int, total: int): int
    requires total > 0
  {
    TruncDiv(amount * r, total)
  }

  /** BaseShare as a function of the ratio alone. */
  function Sharer(amount: int, total: int): int -> int
    requires total > 0
  {
    r => BaseShare(amount, r, total)
  }

  /** What the truncation left over, to be dealt out one unit at a time. */
  function Residue(amount: int, ratios: seq<int>, total: int): int
    requires total > 0
  {
    amount - Sum(ratios, Sharer(amount, total))
  }

  function Sign(x: int): int {
    if x < 0 then -1 else 1
  }

  /** The first |residue| participants get one unit more, in the direction of the amount. */
  function DealtShare(amount: int, ratios: seq<int>, total: int, i: nat): int
    requires total > 0 && i < |ratios|
  {
    var residue := Residue(amount, ratios, total);
    BaseShare(amount, ratios[i], total) + if i < Abs(residue) then Sign(residue) else 0
  }

  lemma {:induction false} SumOfMap(ratios: seq<int>, shares: seq<int>, f: int -> int)
    requires |shares| == |ratios| && forall i :: 0 <= i < |ratios| ==> shares[i] == f(ratios[i])
    ensures Total(shares) == Sum(ratios, f)
  {
    if ratios != [] {
      var n := |ratios| - 1;
      SumOfMap(ratios[..n], shares[..n], f);
    }
  }

  lemma {:induction false} TotalIsZeroOnlyOfZeros(ratios: seq<int>)
    requires forall i :: 0 <= i < |ratios| ==> ratios[i] >= 0
    ensures Total(ratios) >= 0
    ensures Total(ratios) == 0 <==> forall i :: 0 <= i < |ratios| ==> ratios[i] == 0
  {
    if ratios != [] {
      var n := |ratios| - 1;
      assert forall i :: 0 <= i < n ==> ratios[..n][i] == ratios[i];
      TotalIsZeroOnlyOfZeros(ratios[..n]);
      if Total(ratios) == 0 {
        assert forall i :: 0 <= i < n ==> ratios[i] == ratios[..n][i];
      }
    }
  }

  /** What truncation loses on one share, scaled by the total. */
  lemma {:induction false} TruncationError(amount: int, r: int, total: int)
    requires total > 0 && r >= 0
    ensures amount >= 0 ==> 0 <= amount * r - BaseShare(amount, r, total) * total < total
    ensures amount <= 0 ==> -total < amount * r - BaseShare(amount, r, total) * total <= 0
  {
    var x := amount * r;
    if amount >= 0 {
      assert x >= 0;
      assert x == x / total * total + x % total;
    } else {
      var y := -x;
      assert y == -amount * r && y >= 0;
      assert y == y / total * total + y % total;
      assert BaseShare(amount, r, total) == -(y / total) by {
        if y == 0 {
          assert 0 / total == 0;
        }
      }
      assert -(y / total) * total == -(y / total * total);
    }
  }

  /** The truncation error of one share, scaled by the total. */
  function ScaledError(amount: int, total: int): int -> int
    requires total > 0
  {
    r => amount * r - BaseShare(amount, r, total) * total
  }

  lemma {:induction false} Regroup(amount: int, a: int, r: int, b: int, share: int, total: int)
    ensures amount * (a + r) - (b + share) * total == (amount * a - b * total) + (amount * r - share * total)
  {
  }

  lemma {:induction false} ErrorsAddUp(amount: int, ratios: seq<int>, total: int)
    requires total > 0
    ensures Sum(ratios, ScaledError(amount, total))
         == amount * Total(ratios) - Sum(ratios, Sharer(amount, total)) * total
  {
    if ratios != [] {
      var n := |ratios| - 1;
      var front, r := ratios[..n], ratios[n];
      ErrorsAddUp(amount, front, total);
      Regroup(amount, Total(front), r, Sum(front, Sharer(amount, total)), BaseShare(amount, r, total), total);
    }
  }

  lemma {:induction false} OneMore(n: nat, x: int)
    ensures (n + 1) * x == n * x + x
  {
  }

  lemma {:induction false} SumOfBounded(s: seq<int>, f: int -> int, low: int, high: int)
    requires forall i :: 0 <= i < |s| ==> low <= f(s[i]) <= high
    ensures |s| * low <= Sum(s, f) <= |s| * high
  {
    if s != [] {
      var front := s[..|s| - 1];
      assert forall i :: 0 <= i < |front| ==> front[i] == s[i];
      SumOfBounded(front, f, low, high);
      OneMore(|front|, low);
      OneMore(|front|, high);
    }
  }

  /** A multiple of `total` within n * (total - 1) of zero is less than n times `total`. */
  lemma {:induction false} QuotientBelow(x: int, n: nat, total: int)
    requires total > 0 && n > 0
    requires x * total <= n * (total - 1)
    ensures x < n
  {
  }

  lemma {:induction false} ErrorsAreBounded(amount: int, ratios: seq<int>, total: int)
    requires total > 0 && forall i :: 0 <= i < |ratios| ==> ratios[i] >= 0
    ensures var error := Sum(ratios, ScaledError(amount, total));
            && (amount >= 0 ==> 0 <= error <= |ratios| * (total - 1))
            && (amount <= 0 ==> 0 <= -error <= |ratios| * (total - 1))
  {
    var error := ScaledError(amount, total);
    forall i | 0 <= i < |ratios|
      ensures amount >= 0 ==> 0 <= error(ratios[i]) <= total - 1
      ensures amount <= 0 ==> 1 - total <= error(ratios[i]) <= 0
    {
      TruncationError(amount, ratios[i], total);
    }
    if amount >= 0 {
      SumOfBounded(ratios, error, 0, total - 1);
    }
    if amount <= 0 {
      SumOfBounded(ratios, error, 1 - total, 0);
      assert |ratios| * (1 - total) == -(|ratios| * (total - 1));
    }
  }

  lemma {:induction false} ResidueTimesTotal(amount: int, ratios: seq<int>)
    requires Total(ratios) > 0
    ensures var total := Total(ratios);
            Residue(amount, ratios, total) * total == Sum(ratios, ScaledError(amount, total))
  {
    var total := Total(ratios);
    ErrorsAddUp(amount, ratios, total);
    Regroup(amount, total, 0, Sum(ratios, Sharer(amount, total)), 0, total);
    Distribute(amount, Sum(ratios, Sharer(amount, total)), total);
  }

  /** A residue whose multiple by the total is a bounded error is smaller than n. */
  lemma {:induction false} SmallResidue(residue: int, amount: int, n: nat, total: int, error: int)
    requires n > 0 && total > 0 && residue * total == error
    requires amount >= 0 ==> 0 <= error <= n * (total - 1)
    requires amount <= 0 ==> 0 <= -error <= n * (total - 1)
    ensures Abs(residue) < n
    ensures (residue > 0 ==> amount > 0) && (residue < 0 ==> amount < 0)
  {
    Distribute(0, residue, total);
    if amount >= 0 {
      QuotientBelow(residue, n, total);
    }
    if amount <= 0 {
      QuotientBelow(-residue, n, total);
    }
  }

  /** The residue is smaller than the number of participants and points the amount's way. */
  lemma {:induction false} ResidueIsSmall(amount: int, ratios: seq<int>)
    requires Total(ratios) > 0 && forall i :: 0 <= i < |ratios| ==> ratios[i] >= 0
    ensures var residue := Residue(amount, ratios, Total(ratios));
            && Abs(residue) < |ratios|
            && (residue > 0 ==> amount > 0) && (residue < 0 ==> amount < 0)
  {
    var total := Total(ratios);
    ResidueTimesTotal(amount, ratios);
    ErrorsAreBounded(amount, ratios, total);
    SmallResidue(Residue(amount, ratios, total), amount, |ratios|, total, Sum(ratios, ScaledError(amount, total)));
  }

  lemma {:induction false} NoWrap(i: nat, n: nat)
    requires i < n
    ensures i % n == i
  {
  }

  /**
   * The round-robin loop of Money.allocate, which deals the residue out from
   * participant 0. It would wrap around; the invariant shows that it never does.
   */
  method DealResidue(base: seq<int>, residue: int) returns (shares: seq<int>)
    requires Abs(residue) < |base|
    ensures |shares| == |base| && Total(shares) == Total(base) + residue
    ensures forall k :: 0 <= k < |base| ==> shares[k] == base[k] + if k < Abs(residue) then Sign(residue) else 0
  {
    shares := base;
    var remainder := residue;
    var step := if remainder < 0 then -1 else 1;
    var i: nat := 0;
    while remainder != 0
      invariant |shares| == |base| && Total(shares) + remainder == Total(base) + residue
      invariant remainder == (if residue < 0 then residue + i else residue - i)
      invariant i <= Abs(residue)
      invariant forall k :: 0 <= k < |base| ==> shares[k] == base[k] + if k < i then step else 0
      decreases Abs(remainder)
    {
      SumSet(shares, i, shares[i] + step, Identity());
      shares := shares[i := shares[i] + step];
      remainder := remainder - step;
      NoWrap(i + 1, |shares|);
      i := (i + 1) % |shares|;
    }
  }

  /** The guards of Money.allocate, in their order. */
  function AllocationFault(ratios: seq<int>): Option<AllocationError> {
    if ratios == [] then Some(NoRatios)
    else if exists i :: 0 <= i < |ratios| && !SafeRatio(ratios[i]) then Some(BadRatio)
    else if forall i :: 0 <= i < |ratios| ==> ratios[i] == 0 then Some(AllZero)
    else None
  }

  /** Money.allocate: nothing is lost or created, and each part is known exactly. */
  method Allocate(amount: int, ratios: seq<int>) returns (r: Result<seq<int>, AllocationError>)
    ensures r.Err? ==> AllocationFault(ratios) == Some(r.error)
    ensures r == Err(NoRatios) <==> |ratios| == 0
    ensures r == Err(BadRatio) <==> exists i :: 0 <= i < |ratios| && !(0 <= ratios[i] <= MAX_SAFE_INTEGER)
    ensures r == Err(AllZero) <==> |ratios| > 0 && forall i :: 0 <= i < |ratios| ==> ratios[i] == 0
    ensures r.Ok? ==>
              && AllocationFault(ratios) == None && Total(ratios) > 0
              && |r.value| == |ratios| && Total(r.value) == amount
              && forall i :: 0 <= i < |ratios| ==> r.value[i] == DealtShare(amount, ratios, Total(ratios), i)
  {
    if |ratios| == 0 {
      return Err(NoRatios);
    }
    if exists i :: 0 <= i < |ratios| && !SafeRatio(ratios[i]) {
      return Err(BadRatio);
    }
    var total := Total(ratios);
    TotalIsZeroOnlyOfZeros(ratios);
    if total == 0 {
      return Err(AllZero);
    }
    var base := seq(|ratios|, i requires 0 <= i < |ratios| => BaseShare(amount, ratios[i], total));
    SumOfMap(ratios, base, Sharer(amount, total));
    ResidueIsSmall(amount, ratios);
    var shares := DealResidue(base, amount - Total(base));
    return Ok(shares);
  }

  /** Every part lies within one minor unit of its exact proportion. */
  lemma {:induction false} PartsAreProportional(amount: int, ratios: seq<int>, i: nat)
    requires Total(ratios) > 0 && (forall k :: 0 <= k < |ratios| ==> ratios[k] >= 0) && i < |ratios|
    ensures var total := Total(ratios);
            -total <= DealtShare(amount, ratios, total, i) * total - amount * ratios[i] <= total
  {
    var total := Total(ratios);
    TruncationError(amount, ratios[i], total);
    ResidueIsSmall(amount, ratios);
    var share := BaseShare(amount, ratios[i], total);
    assert (share + 1) * total == share * total + total;
    assert (share - 1) * total == share * total - total;
  }

  // ------------------------------------------------------------------ fees

  const FULL_BPS: int := 10_000

  /** fee is bps/10000 of amount rounded up to a whole minor unit. */
  predicate RoundedUp(amount: int, bps: int, fee: int) {
    (fee - 1) * FULL_BPS < amount * bps <= fee * FULL_BPS
  }

  lemma {:induction false} SumOfTwo(a: int, b: int, f: int -> int)
    ensures Sum([a, b], f) == f(a) + f(b)
  {
    assert [a, b] == [] + [a] + [b];
    SumPush([], a, f);
    SumPush([a], b, f);
  }

  /** With two shares the residue is at most one unit, and goes to the first. */
  lemma {:induction false} FirstRoundsUp(amount: int, bps: int, x: int, y: int, p: int, q: int)
    requires amount > 0 && x == amount * bps && x + y == amount * FULL_BPS
    requires 0 <= x - p * FULL_BPS < FULL_BPS && 0 <= y - q * FULL_BPS < FULL_BPS
    ensures 0 <= amount - p - q <= 1 && RoundedUp(amount, bps, p + (amount - p - q))
  {
  }

  lemma {:induction false} BaseOfNegation(amount: int, r: int)
    requires amount > 0 && r >= 0
    ensures BaseShare(-amount, r, FULL_BPS) == -BaseShare(amount, r, FULL_BPS)
  {
    assert -amount * r == -(amount * r);
  }

  lemma {:induction false} FirstOfTwoShares(amount: int, bps: int)
    requires 0 < bps <= FULL_BPS
    ensures Total([bps, FULL_BPS - bps]) == FULL_BPS
    ensures amount > 0 ==> RoundedUp(amount, bps, DealtShare(amount, [bps, FULL_BPS - bps], FULL_BPS, 0))
    ensures amount < 0 ==> RoundedUp(-amount, bps, -DealtShare(amount, [bps, FULL_BPS - bps], FULL_BPS, 0))
  {
    SumOfTwo(bps, FULL_BPS - bps, Identity());
    SumOfTwo(bps, FULL_BPS - bps, Sharer(amount, FULL_BPS));
    if amount > 0 {
      SplitRoundsUp(amount, bps);
    } else if amount < 0 {
      SplitRoundsUp(-amount, bps);
      BaseOfNegation(-amount, bps);
      BaseOfNegation(-amount, FULL_BPS - bps);
    }
  }

  lemma {:induction false} SplitRoundsUp(amount: int, bps: int)
    requires amount > 0 && 0 < bps <= FULL_BPS
    ensures var p, q := BaseShare(amount, bps, FULL_BPS), BaseShare(amount, FULL_BPS - bps, FULL_BPS);
            0 <= amount - p - q <= 1 && RoundedUp(amount, bps, p + (amount - p - q))
  {
    TruncationError(amount, bps, FULL_BPS);
    TruncationError(amount, FULL_BPS - bps, FULL_BPS);
    assert amount * bps + amount * (FULL_BPS - bps) == amount * FULL_BPS;
    FirstRoundsUp(amount, bps, amount * bps, amount * (FULL_BPS - bps),
                  BaseShare(amount, bps, FULL_BPS), BaseShare(amount, FULL_BPS - bps, FULL_BPS));
  }

  /** FlatBpsFeeSchedule.platformFee: the fee is rounded up, away from zero. */
  method PlatformFee(amount: int, bps: int) returns (fee: int)
    requires 0 <= bps <= FULL_BPS
    ensures amount > 0 ==> RoundedUp(amount, bps, fee)
    ensures amount < 0 ==> RoundedUp(-amount, bps, -fee)
    ensures amount == 0 ==> fee == 0
  {
    if bps == 0 || amount == 0 {
      return 0;
    }
    var ratios := [bps, FULL_BPS - bps];
    var split := Allocate(amount, ratios);
    FirstOfTwoShares(amount, bps);
    assert ratios[0] == bps && forall i :: 0 <= i < |ratios| ==> SafeRatio(ratios[i]);
    fee := split.value[0];
  }

  /** The fee the schedule charges on a positive amount, as a function. */
  function FeeOn(amount: int, bps: int): int {
    (amount * bps + FULL_BPS - 1) / FULL_BPS
  }

  lemma {:induction false} FeeIsUnique(amount: int, bps: int, fee: int)
    ensures RoundedUp(amount, bps, fee) <==> fee == FeeOn(amount, bps)
  {
  }

  /**
   * With no provider fee a capture of `amount` is accepted, that is amount - fee > 0,
   * exactly when the merchant's exact proportion is at least one minor unit; the fee
   * never exceeds the amount.
   */
  lemma {:induction false} CaptureAcceptsFee(amount: int, bps: int)
    requires amount > 0 && 0 <= bps <= FULL_BPS
    ensures 0 <= FeeOn(amount, bps) <= amount
    ensures amount - FeeOn(amount, bps) > 0 <==> amount * (FULL_BPS - bps) >= FULL_BPS
  {
    var fee := FeeOn(amount, bps);
    FeeIsUnique(amount, bps, fee);
    assert amount * bps <= amount * FULL_BPS;
    assert amount * (FULL_BPS - bps) == amount * FULL_BPS - amount * bps;
  }
}
