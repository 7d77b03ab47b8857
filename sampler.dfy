/**
 * The interpolated sampler `getValueForNormalizedCoord`: a normalized
 * coordinate in [0,1] picks a point between the first and the last bin of a
 * series of frequency-bin magnitudes, and the value there is the linear
 * interpolation of the two neighbouring bins.
 *
 * Magnitudes are reals.  A series that is `undefined`/`null` in the program is
 * `None`; an allocated series, possibly empty, is `Some(s)`.
 */
module Sampler {
  import opened Wrappers

  /** The series holds at least one bin (otherwise the sampler yields 0). */
  predicate HasBins(bars: Option<seq<real>>) {
    bars.Some? && |bars.value| > 0
  }

  /** `normalizedCoord * (bars.length - 1)`. */
  function RawIndex(n: nat, coord: real): (raw: real)
    requires n > 0 && 0.0 <= coord <= 1.0
    ensures 0.0 <= raw <= (n - 1) as real
  {
    ProductNonNegative(coord, (n - 1) as real);
    ProductNonNegative(1.0 - coord, (n - 1) as real);
    coord * (n - 1) as real
  }

  /** `Math.floor`: the greatest integer not above `raw`. */
  function FloorIndex(raw: real): (f: int)
    ensures f as real <= raw < f as real + 1.0
  {
    raw.Floor
  }

  /** `Math.ceil`: the least integer not below `raw`. */
  function CeilIndex(raw: real): (c: int)
    ensures raw <= c as real < raw + 1.0
  {
    if raw.Floor as real == raw then raw.Floor else raw.Floor + 1
  }

  /**
   * `raw % 1`.  JavaScript's `%` keeps the sign of the dividend, so for a
   * non-negative `raw` it is the distance to the floor.
   */
  function Frac(raw: real): (f: real)
    requires raw >= 0.0
    ensures 0.0 <= f < 1.0
    ensures raw == FloorIndex(raw) as real + f
  {
    raw - raw.Floor as real
  }

  /** The product of two non-negative reals is non-negative. */
  lemma ProductNonNegative(a: real, b: real)
    requires a >= 0.0 && b >= 0.0
    ensures a * b >= 0.0
  {
  }

  /** For a coordinate in [0,1] both neighbour indices are bins of the series. */
  lemma NeighbourIndicesInRange(n: nat, coord: real)
    requires n > 0 && 0.0 <= coord <= 1.0
    ensures 0 <= FloorIndex(RawIndex(n, coord)) <= CeilIndex(RawIndex(n, coord)) <= n - 1
    ensures CeilIndex(RawIndex(n, coord)) <= FloorIndex(RawIndex(n, coord)) + 1
  {
    ProductNonNegative(coord, (n - 1) as real);
    ProductNonNegative(1.0 - coord, (n - 1) as real);
  }

  /** `valueBelow = bars[Math.floor(rawIdx)]`: a bin of the series, the first one at coordinate 0. */
  function Below(s: seq<real>, coord: real): (v: real)
    requires |s| > 0 && 0.0 <= coord <= 1.0
    ensures v in s
    ensures coord == 0.0 ==> v == s[0]
  {
    NeighbourIndicesInRange(|s|, coord);
    s[FloorIndex(RawIndex(|s|, coord))]
  }

  /** `valueAbove = bars[Math.ceil(rawIdx)]`: a bin of the series, the last one at coordinate 1. */
  function Above(s: seq<real>, coord: real): (v: real)
    requires |s| > 0 && 0.0 <= coord <= 1.0
    ensures v in s
    ensures coord == 1.0 ==> v == s[|s| - 1]
  {
    NeighbourIndicesInRange(|s|, coord);
    s[CeilIndex(RawIndex(|s|, coord))]
  }

  /**
   * `rawIdx % 1`: how far the coordinate lies from the lower bin towards the
   * upper one; it is 0 exactly when both neighbours are the same bin.
   */
  function Fraction(s: seq<real>, coord: real): (f: real)
    requires |s| > 0 && 0.0 <= coord <= 1.0
    ensures 0.0 <= f < 1.0
    ensures f == 0.0 <==> FloorIndex(RawIndex(|s|, coord)) == CeilIndex(RawIndex(|s|, coord))
  {
    NeighbourIndicesInRange(|s|, coord);
    Frac(RawIndex(|s|, coord))
  }

  /**
   * `getValueForNormalizedCoord(bars, normalizedCoord)`.  Missing or empty
   * bars give 0 whatever the coordinate; otherwise the coordinate must lie in
   * [0,1] (outside it the program reads past the array).
   */
  function GetValueForNormalizedCoord(bars: Option<seq<real>>, coord: real): (v: real)
    requires HasBins(bars) ==> 0.0 <= coord <= 1.0
    ensures !HasBins(bars) ==> v == 0.0
  {
    if !HasBins(bars) then 0.0
    else
      var below := Below(bars.value, coord);
      var above := Above(bars.value, coord);
      below + Fraction(bars.value, coord) * (above - below)
  }

  /**
   * The sampled value is the convex combination `(1-f)*below + f*above` of
   * the two neighbouring bins with a weight `f` in [0,1), so it lies between them.
   */
  lemma SampleIsConvexCombination(s: seq<real>, coord: real)
    requires |s| > 0 && 0.0 <= coord <= 1.0
    ensures var f := Fraction(s, coord);
            var v := GetValueForNormalizedCoord(Some(s), coord);
            && 0.0 <= f < 1.0
            && v == (1.0 - f) * Below(s, coord) + f * Above(s, coord)
    ensures var v := GetValueForNormalizedCoord(Some(s), coord);
            var lo := Below(s, coord);
            var hi := Above(s, coord);
            (lo <= v <= hi) || (hi <= v <= lo)
  {
    var f := Fraction(s, coord);
    var lo, hi := Below(s, coord), Above(s, coord);
    var v := GetValueForNormalizedCoord(Some(s), coord);
    assert v == lo + f * (hi - lo);
    if lo <= hi {
      ProductNonNegative(f, hi - lo);
      ProductNonNegative(1.0 - f, hi - lo);
    } else {
      ProductNonNegative(f, lo - hi);
      ProductNonNegative(1.0 - f, lo - hi);
    }
  }

  /** Coordinate 0 returns the first bin. */
  lemma SampleAtStart(s: seq<real>)
    requires |s| > 0
    ensures GetValueForNormalizedCoord(Some(s), 0.0) == s[0]
  {
  }

  /** Coordinate 1 returns the last bin. */
  lemma SampleAtEnd(s: seq<real>)
    requires |s| > 0
    ensures GetValueForNormalizedCoord(Some(s), 1.0) == s[|s| - 1]
  {
  }

  /** A series of one bin returns that bin for every coordinate in [0,1]. */
  lemma SampleSingleBin(x: real, coord: real)
    requires 0.0 <= coord <= 1.0
    ensures GetValueForNormalizedCoord(Some([x]), coord) == x
  {
  }

  /**
   * The coordinate `k/(n-1)` lands exactly on bin `k`: the interpolation
   * passes through every sample (the two endpoint cases are k = 0 and k = n-1).
   */
  lemma SampleAtBin(s: seq<real>, k: nat)
    requires |s| >= 2 && k < |s|
    ensures 0.0 <= k as real / (|s| - 1) as real <= 1.0
    ensures GetValueForNormalizedCoord(Some(s), k as real / (|s| - 1) as real) == s[k]
  {
    var m := (|s| - 1) as real;
    var coord := k as real / m;
    assert RawIndex(|s|, coord) == k as real;
    assert FloorIndex(k as real) == k;
    assert CeilIndex(k as real) == k;
  }

  /** With two bins the sampler is the straight line from the first to the second. */
  lemma SampleTwoBins(a: real, b: real, coord: real)
    requires 0.0 <= coord <= 1.0
    ensures GetValueForNormalizedCoord(Some([a, b]), coord) == a + coord * (b - a)
  {
  }

  /** The bins never decrease from left to right. */
  ghost predicate NonDecreasing(s: seq<real>) {
    forall i, j :: 0 <= i <= j < |s| ==> s[i] <= s[j]
  }

  /** Both coordinates fall in the same segment `[f, f+1]` of a non-decreasing series. */
  lemma SampleMonotoneSameSegment(s: seq<real>, c1: real, c2: real)
    requires |s| > 0 && NonDecreasing(s)
    requires 0.0 <= c1 <= c2 <= 1.0
    requires FloorIndex(RawIndex(|s|, c1)) == FloorIndex(RawIndex(|s|, c2))
    ensures GetValueForNormalizedCoord(Some(s), c1) <= GetValueForNormalizedCoord(Some(s), c2)
  {
    NeighbourIndicesInRange(|s|, c1);
    NeighbourIndicesInRange(|s|, c2);
    SampleIsConvexCombination(s, c1);
    SampleIsConvexCombination(s, c2);
    ProductNonNegative(c2 - c1, (|s| - 1) as real);
    var v1 := GetValueForNormalizedCoord(Some(s), c1);
    var v2 := GetValueForNormalizedCoord(Some(s), c2);
    var lo := s[FloorIndex(RawIndex(|s|, c1))];
    var fr1, fr2 := Fraction(s, c1), Fraction(s, c2);
    assert fr1 <= fr2;
    var hi1, hi2 := Above(s, c1), Above(s, c2);
    if fr1 == 0.0 {
      // The lower coordinate sits on a bin, which the upper one cannot undercut.
      assert v1 == lo;
      assert lo <= hi2;
    } else {
      // The larger fraction along the same rising segment gives the larger value.
      assert hi1 == hi2;
      assert lo <= hi1;
      ProductNonNegative(fr2 - fr1, hi1 - lo);
    }
  }

  /** The coordinates fall in different segments: `v1 <= s[ceil r1] <= s[floor r2] <= v2`. */
  lemma SampleMonotoneAcrossSegments(s: seq<real>, c1: real, c2: real)
    requires |s| > 0 && NonDecreasing(s)
    requires 0.0 <= c1 <= c2 <= 1.0
    requires FloorIndex(RawIndex(|s|, c1)) < FloorIndex(RawIndex(|s|, c2))
    ensures GetValueForNormalizedCoord(Some(s), c1) <= GetValueForNormalizedCoord(Some(s), c2)
  {
    NeighbourIndicesInRange(|s|, c1);
    NeighbourIndicesInRange(|s|, c2);
    SampleIsConvexCombination(s, c1);
    SampleIsConvexCombination(s, c2);
    var f2 := FloorIndex(RawIndex(|s|, c2));
    assert CeilIndex(RawIndex(|s|, c1)) <= f2;
    assert Above(s, c1) <= s[f2];
  }

  /** Over a non-decreasing series the sampler is non-decreasing in the coordinate. */
  lemma SampleMonotone(s: seq<real>, c1: real, c2: real)
    requires |s| > 0 && NonDecreasing(s)
    requires 0.0 <= c1 <= c2 <= 1.0
    ensures GetValueForNormalizedCoord(Some(s), c1) <= GetValueForNormalizedCoord(Some(s), c2)
  {
    NeighbourIndicesInRange(|s|, c1);
    NeighbourIndicesInRange(|s|, c2);
    var m := (|s| - 1) as real;
    var r1, r2 := RawIndex(|s|, c1), RawIndex(|s|, c2);
    ProductNonNegative(c2 - c1, m);
    assert r2 - r1 == (c2 - c1) * m;
    // `Math.floor` is monotone: floor(r1) <= r1 <= r2 < floor(r2) + 1.
    assert FloorIndex(r1) <= FloorIndex(r2);
    if FloorIndex(RawIndex(|s|, c1)) == FloorIndex(RawIndex(|s|, c2)) {
      SampleMonotoneSameSegment(s, c1, c2);
    } else {
      SampleMonotoneAcrossSegments(s, c1, c2);
    }
  }
}
