/** The benchmark's result checksum and its nearest-rank percentile. */
module Measurement {
  // ---------------------------------------------------------------- folding by rotation, in general

  function Iterate<T>(turn: T -> T, x: T, n: nat): (y: T)
  {
    if n == 0 then x else turn(Iterate(turn, x, n - 1))
  }

  function Fold<T>(zero: T, plus: (T, T) -> T, turn: T -> T, values: seq<T>): (c: T)
  {
    if values == [] then zero
    else plus(turn(Fold(zero, plus, turn, values[..|values| - 1])), values[|values| - 1])
  }

  /** The sum of every value turned as many times as it stands before the end, plus `distance`. */
  function Spread<T>(zero: T, plus: (T, T) -> T, turn: T -> T, values: seq<T>, distance: nat): (c: T)
  {
    if values == [] then zero
    else plus(Spread(zero, plus, turn, values[..|values| - 1], distance + 1),
              Iterate(turn, values[|values| - 1], distance))
  }

  ghost predicate IsLinear<T(!new)>(zero: T, plus: (T, T) -> T, turn: T -> T) {
    turn(zero) == zero && forall a, b :: turn(plus(a, b)) == plus(turn(a), turn(b))
  }

  lemma {:induction false} IterateIsLinear<T(!new)>(zero: T, plus: (T, T) -> T, turn: T -> T, a: T, b: T, n: nat)
    requires IsLinear(zero, plus, turn)
    ensures Iterate(turn, plus(a, b), n) == plus(Iterate(turn, a, n), Iterate(turn, b, n))
    ensures Iterate(turn, zero, n) == zero
  {
    if n > 0 { IterateIsLinear(zero, plus, turn, a, b, n - 1); }
  }

  lemma {:induction false} IterateAdd<T(!new)>(turn: T -> T, x: T, m: nat, n: nat)
    ensures Iterate(turn, Iterate(turn, x, m), n) == Iterate(turn, x, m + n)
  {
    if n > 0 { IterateAdd(turn, x, m, n - 1); }
  }

  lemma {:induction false} FoldIsSpread<T(!new)>(
      zero: T, plus: (T, T) -> T, turn: T -> T, values: seq<T>, distance: nat)
    requires IsLinear(zero, plus, turn)
    ensures Iterate(turn, Fold(zero, plus, turn, values), distance) == Spread(zero, plus, turn, values, distance)
  {
    if values == [] {
      IterateIsLinear(zero, plus, turn, zero, zero, distance);
    } else {
      var n := |values| - 1;
      var before := Fold(zero, plus, turn, values[..n]);
      FoldIsSpread(zero, plus, turn, values[..n], distance + 1);
      IterateIsLinear(zero, plus, turn, turn(before), values[n], distance);
      assert Iterate(turn, before, 1) == turn(before);
      IterateAdd(turn, before, 1, distance);
    }
  }

  // ---------------------------------------------------------------- the checksum

  /** One bit to the left, the top bit coming round. */
  function Turn(x: bv64): (y: bv64)
  {
    (x << 1) | (x >> 63)
  }

  /** `rotate_left(7)`. */
  function Rotate7(x: bv64): (y: bv64)
  {
    (x << 7) | (x >> 57)
  }

  function Xor(a: bv64, b: bv64): (c: bv64)
  {
    a ^ b
  }

  function Mix(checksum: bv64, value: bv64): (next: bv64)
  {
    Rotate7(checksum) ^ value
  }

  function Checksum(values: seq<bv64>): (c: bv64)
  {
    if values == [] then 0 else Mix(Checksum(values[..|values| - 1]), values[|values| - 1])
  }

  lemma RotationIsLinear()
    ensures IsLinear(0, Xor, Rotate7)
  {
    forall a, b ensures Rotate7(Xor(a, b)) == Xor(Rotate7(a), Rotate7(b)) { RotateXor(a, b); }
  }

  lemma RotateXor(a: bv64, b: bv64)
    ensures Rotate7(a ^ b) == Rotate7(a) ^ Rotate7(b)
  {
  }

  lemma {:induction false} ChecksumIsFold(values: seq<bv64>)
    ensures Checksum(values) == Fold(0, Xor, Rotate7, values)
  {
    if values != [] { ChecksumIsFold(values[..|values| - 1]); }
  }

  lemma SevenTurns(x: bv64)
    ensures Turn(Turn(Turn(Turn(Turn(Turn(Turn(x))))))) == Rotate7(x)
  {
  }

  /** Rotating by seven, `n` times, is rotating by one, `7 * n` times. */
  lemma {:induction false} RotationsAreTurns(x: bv64, n: nat)
    ensures Iterate(Rotate7, x, n) == Iterate(Turn, x, 7 * n)
  {
    if n > 0 {
      RotationsAreTurns(x, n - 1);
      var y := Iterate(Turn, x, 7 * (n - 1));
      SevenTurns(y);
      SevenIterations(Turn, y);
      IterateAdd(Turn, x, 7 * (n - 1), 7);
    }
  }

  lemma SevenIterations<T(!new)>(turn: T -> T, y: T)
    ensures Iterate(turn, y, 7) == turn(turn(turn(turn(turn(turn(turn(y)))))))
  {
    assert Iterate(turn, y, 2) == turn(Iterate(turn, y, 1));
    assert Iterate(turn, y, 4) == turn(Iterate(turn, y, 3));
    assert Iterate(turn, y, 6) == turn(Iterate(turn, y, 5));
  }

  /** The exclusive or of every value, turned left by seven bits times its distance from the end. */
  lemma ChecksumIsRotatedXor(values: seq<bv64>)
    ensures Checksum(values) == Spread(0, Xor, Rotate7, values, 0)
    ensures forall x: bv64, n: nat :: Iterate(Rotate7, x, n) == Iterate(Turn, x, 7 * n)
  {
    RotationIsLinear();
    ChecksumIsFold(values);
    FoldIsSpread(0, Xor, Rotate7, values, 0);
    forall x: bv64, n: nat ensures Iterate(Rotate7, x, n) == Iterate(Turn, x, 7 * n) { RotationsAreTurns(x, n); }
  }

  lemma MixIsInjective(a: bv64, b: bv64, x: bv64, y: bv64)
    ensures a != b ==> Mix(a, x) != Mix(b, x)
    ensures x != y ==> Mix(a, x) != Mix(a, y)
  {
  }

  /** Two runs of the same length that differ in exactly one value have different checksums. */
  lemma {:induction false} OneDifferenceShows(values: seq<bv64>, p: nat, value: bv64)
    requires p < |values| && values[p] != value
    ensures Checksum(values) != Checksum(values[p := value])
  {
    var n := |values| - 1;
    var other := values[p := value];
    if p == n {
      assert other[..n] == values[..n];
      MixIsInjective(Checksum(values[..n]), Checksum(values[..n]), values[n], value);
    } else {
      OneDifferenceShows(values[..n], p, value);
      assert other[..n] == values[..n][p := value];
      MixIsInjective(Checksum(values[..n]), Checksum(other[..n]), values[n], values[n]);
    }
  }

  const U64_MAX := 0xFFFF_FFFF_FFFF_FFFF

  /** The timed loop: the values the operation returned and the nanoseconds each took. */
  method Measure(values: seq<bv64>, nanoseconds: seq<nat>) returns (checksum: bv64, samples: seq<nat>)
    requires |values| == |nanoseconds|
    ensures checksum == Checksum(values)
    ensures |samples| == |nanoseconds|
    ensures forall i :: 0 <= i < |samples| ==>
              samples[i] == if nanoseconds[i] <= U64_MAX then nanoseconds[i] else U64_MAX
  {
    checksum, samples := 0, [];
    for i := 0 to |values|
      invariant checksum == Checksum(values[..i])
      invariant |samples| == i
      invariant forall j :: 0 <= j < i ==> samples[j] == if nanoseconds[j] <= U64_MAX then nanoseconds[j] else U64_MAX
    {
      samples := samples + [if nanoseconds[i] <= U64_MAX then nanoseconds[i] else U64_MAX];
      assert values[..i + 1][..i] == values[..i];
      checksum := Mix(checksum, values[i]);
    }
    assert values[..|values|] == values;
  }

  // ---------------------------------------------------------------- percentiles

  function SaturatingMultiply(a: nat, b: nat): (c: nat)
  {
    if a * b <= U64_MAX then a * b else U64_MAX
  }

  function DivideUp(a: nat, b: nat): (c: nat)
    requires b > 0
  {
    (a + b - 1) / b
  }

  /** The index `percentile` reads, in a list of `n` sorted samples. */
  function RankIndex(n: nat, percent: nat): (i: nat)
    requires n > 0
    ensures i < n
  {
    var rank := DivideUp(SaturatingMultiply(n, percent), 100);
    var index := if rank == 0 then 0 else rank - 1;
    if index < n - 1 then index else n - 1
  }

  function Percentile(sorted: seq<nat>, percent: nat): (x: nat)
    requires sorted != []
  {
    sorted[RankIndex(|sorted|, percent)]
  }

  ghost predicate IsSorted(s: seq<nat>) {
    forall i, j :: 0 <= i < j < |s| ==> s[i] <= s[j]
  }

  /** How many samples are at most `x`. */
  function AtMost(s: seq<nat>, x: nat): (n: nat)
    ensures n <= |s|
  {
    if s == [] then 0 else AtMost(s[..|s| - 1], x) + if s[|s| - 1] <= x then 1 else 0
  }

  lemma {:induction false} AtMostOfSorted(s: seq<nat>, x: nat, k: nat)
    requires IsSorted(s) && k <= |s|
    requires forall i :: 0 <= i < k ==> s[i] <= x
    requires forall i :: k <= i < |s| ==> s[i] > x
    ensures AtMost(s, x) == k
  {
    if s != [] {
      var n := |s| - 1;
      AtMostOfSorted(s[..n], x, if k > n then n else k);
    }
  }

  lemma {:induction false} AtMostBounds(s: seq<nat>, x: nat, k: nat)
    requires IsSorted(s) && k < |s|
    ensures s[k] <= x ==> AtMost(s, x) >= k + 1
    ensures s[k] > x ==> AtMost(s, x) <= k
  {
    if k == |s| - 1 {
      if s[k] <= x { AtMostOfSorted(s, x, |s|); }
    } else {
      AtMostBounds(s[..|s| - 1], x, k);
    }
  }

  /** Without overflow, the least sample that at least the given share of samples does not exceed. */
  lemma PercentileIsNearestRank(sorted: seq<nat>, percent: nat, y: nat)
    requires sorted != [] && IsSorted(sorted) && percent <= 100 && |sorted| * percent <= U64_MAX
    ensures 100 * AtMost(sorted, Percentile(sorted, percent)) >= percent * |sorted|
    ensures y in sorted && y < Percentile(sorted, percent) ==> 100 * AtMost(sorted, y) < percent * |sorted|
  {
    var n, k := |sorted|, RankIndex(|sorted|, percent);
    RankBounds(n, percent);
    AtMostBounds(sorted, sorted[k], k);
    if y in sorted && y < sorted[k] { AtMostBounds(sorted, y, k); }
  }

  lemma DivideUpBounds(a: nat)
    ensures a <= 100 * DivideUp(a, 100) < a + 100
  {
  }

  lemma RankBounds(n: nat, percent: nat)
    requires n > 0 && percent <= 100 && n * percent <= U64_MAX
    ensures var k := RankIndex(n, percent); 100 * (k + 1) >= percent * n && (k > 0 ==> 100 * k < percent * n)
  {
    var product := n * percent;
    assert product == percent * n;
    ProductFits(n, percent);
    DivideUpBounds(product);
    assert SaturatingMultiply(n, percent) == product;
  }

  lemma ProductFits(n: nat, percent: nat)
    requires percent <= 100
    ensures n * percent <= n * 100
  {
  }

  /** The two order statistics the interpolating percentile blends, for the same share. */
  function LowIndex(n: nat, percent: nat): (i: nat)
    requires n > 0
  {
    percent * (n - 1) / 100
  }

  function HighIndex(n: nat, percent: nat): (i: nat)
    requires n > 0
  {
    if LowIndex(n, percent) + 1 < n - 1 then LowIndex(n, percent) + 1 else n - 1
  }

  function Interpolated(sorted: seq<real>, percent: nat): (x: real)
    requires sorted != [] && percent <= 100
  {
    var position := percent as real / 100.0 * (|sorted| - 1) as real;
    var low, high := LowIndex(|sorted|, percent), HighIndex(|sorted|, percent);
    LowIsIndex(|sorted|, percent);
    Blend(sorted[low], sorted[high], position - low as real)
  }

  function Blend(low: real, high: real, part: real): (x: real)
  {
    low + (high - low) * part
  }

  lemma BlendLiesBetween(low: real, high: real, part: real)
    requires low <= high && 0.0 <= part <= 1.0
    ensures low <= Blend(low, high, part) <= high
  {
    var gap := high - low;
    assert gap * (1.0 - part) >= 0.0;
    assert gap * part >= 0.0;
    assert gap * part + gap * (1.0 - part) == gap;
  }

  lemma LowIsIndex(n: nat, percent: nat)
    requires n > 0 && percent <= 100
    ensures LowIndex(n, percent) < n && HighIndex(n, percent) < n
  {
    var product := percent * (n - 1);
    assert product <= 100 * (n - 1);
    assert product / 100 <= n - 1;
  }

  /** Nearest rank picks one of the two samples the interpolation lies between. */
  lemma RankIsLowOrHigh(n: nat, percent: nat)
    requires n > 0 && percent <= 100 && n * percent <= U64_MAX
    ensures RankIndex(n, percent) == LowIndex(n, percent) || RankIndex(n, percent) == HighIndex(n, percent)
  {
    RankBounds(n, percent);
    assert percent * (n - 1) == percent * n - percent;
  }

  lemma InterpolationLiesBetween(sorted: seq<real>, percent: nat)
    requires sorted != [] && percent <= 100
    requires forall i, j :: 0 <= i < j < |sorted| ==> sorted[i] <= sorted[j]
    ensures var low, high := LowIndex(|sorted|, percent), HighIndex(|sorted|, percent);
            && low <= high < |sorted|
            && sorted[low] <= Interpolated(sorted, percent) <= sorted[high]
  {
    var n := |sorted|;
    LowIsIndex(n, percent);
    var low, high := LowIndex(n, percent), HighIndex(n, percent);
    var part := percent as real / 100.0 * (n - 1) as real - low as real;
    PartBounds(n, percent, low);
    BlendLiesBetween(sorted[low], sorted[high], part);
  }

  lemma PartBounds(n: nat, percent: nat, low: nat)
    requires n > 0 && percent <= 100 && low == LowIndex(n, percent)
    ensures 0.0 <= percent as real / 100.0 * (n - 1) as real - low as real <= 1.0
  {
    var product := percent * (n - 1);
    assert 100 * low <= product < 100 * low + 100;
    assert percent as real * (n - 1) as real == product as real;
    assert percent as real / 100.0 * (n - 1) as real == product as real / 100.0;
  }
}
