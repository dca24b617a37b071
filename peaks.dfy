/** Peak selection of the Lomb-Scargle estimator (RotationModel.ls_rotation):
    the strict interior local maxima of the power curve, and the period
    reported from them. */
module Peaks {
  import opened Selection

  /** A strict interior local maximum: higher than both neighbours. Boundary
      points and points on a plateau are never peaks. */
  predicate IsPeak(power: seq<real>, i: int) {
    1 <= i < |power| - 1 && power[i - 1] < power[i] && power[i + 1] < power[i]
  }

  /** The condition of the peak list comprehension, as a mask over the curve. */
  function PeakMask(power: seq<real>): (m: seq<bool>)
    ensures |m| == |power|
    ensures forall i :: 0 <= i < |m| && m[i] ==> 0 < i < |power| - 1
  {
    seq(|power|, i requires 0 <= i < |power| => IsPeak(power, i))
  }

  /** The list comprehension over range(1, len(ps) - 1): every peak index,
      in ascending order. */
  function PeakIndices(power: seq<real>): (r: seq<nat>)
    ensures forall i: int :: i in r <==> IsPeak(power, i)
    ensures Ascending(r) && InRange(r, |power|)
  {
    Where(PeakMask(power))
  }

  /** Python's `max` over a non-empty sequence: scan left to right, replace
      only on a strictly larger value. */
  function Max(s: seq<real>): (m: real)
    requires |s| > 0
    ensures m in s
    ensures forall k :: 0 <= k < |s| ==> s[k] <= m
  {
    if |s| == 1 then s[0]
    else
      var m := Max(s[..|s| - 1]);
      assert forall k :: 0 <= k < |s| - 1 ==> s[..|s| - 1][k] == s[k];
      if s[|s| - 1] > m then s[|s| - 1] else m
  }

  /** The mask `power == v`. */
  function EqualMask(power: seq<real>, v: real): (m: seq<bool>)
    ensures |m| == |power|
    ensures (exists i :: 0 <= i < |m| && m[i]) <==> v in power
  {
    var m := seq(|power|, i requires 0 <= i < |power| => power[i] == v);
    assert forall i :: 0 <= i < |m| ==> (m[i] <==> power[i] == v);
    m
  }

  /** What ls_rotation promises of the index j whose period it reports: the
      power there equals the height of some peak, is at least the height of
      every peak, and no earlier index of the whole curve has that power. */
  predicate IsLsChoice(power: seq<real>, j: int) {
    0 <= j < |power| &&
    (exists i :: 0 <= i < |power| && IsPeak(power, i) && power[i] == power[j]) &&
    (forall i :: 0 <= i < |power| && IsPeak(power, i) ==> power[i] <= power[j]) &&
    (forall k :: 0 <= k < j ==> power[k] != power[j])
  }

  /** `max(power[peaks])`: the height of the tallest peak. */
  function TallestPeak(power: seq<real>): (top: real)
    requires PeakIndices(power) != []
    ensures top in Pick(power, PeakIndices(power))
    ensures forall i :: 0 <= i < |power| && IsPeak(power, i) ==> power[i] <= top
  {
    var peaks := PeakIndices(power);
    var heights := Pick(power, peaks);
    var top := Max(heights);
    assert forall i :: 0 <= i < |power| && IsPeak(power, i) ==> power[i] <= top by {
      forall i | 0 <= i < |power| && IsPeak(power, i) ensures power[i] <= top {
        assert i in peaks;
        var m :| 0 <= m < |peaks| && peaks[m] == i;
        assert heights[m] == power[i];
      }
    }
    top
  }

  /** The first index of the whole curve whose power is the tallest peak's
      height is a choice in the sense of IsLsChoice. */
  lemma TallestPeakFirstIndex(power: seq<real>)
    requires PeakIndices(power) != []
    ensures Where(EqualMask(power, TallestPeak(power))) != []
    ensures IsLsChoice(power, Where(EqualMask(power, TallestPeak(power)))[0])
  {
    var peaks := PeakIndices(power);
    var top := TallestPeak(power);
    var heights := Pick(power, peaks);
    var k :| 0 <= k < |heights| && heights[k] == top;
    var i := peaks[k];
    assert i in peaks;
    var mask := EqualMask(power, top);
    assert forall k :: 0 <= k < |power| ==> (mask[k] <==> power[k] == top);
    WhereFirst(mask, i);
    var j := Where(mask)[0];
    assert IsPeak(power, i) && power[i] == power[j];
  }

  /** The index whose period ls_rotation reports when the curve has a peak. */
  function LsIndex(power: seq<real>): (j: nat)
    requires PeakIndices(power) != []
    ensures IsLsChoice(power, j)
  {
    TallestPeakFirstIndex(power);
    Where(EqualMask(power, TallestPeak(power)))[0]
  }

  /** The period ls_rotation reports for periods ps and power curve power,
      written as the source computes it: 0 when there is no peak, otherwise
      `ps[power == max(power[peaks])][0]`. */
  function LsPeriod(ps: seq<real>, power: seq<real>): (p: real)
    requires |ps| == |power|
    ensures PeakIndices(power) == [] ==> p == 0.0
    ensures PeakIndices(power) != [] ==> p == ps[LsIndex(power)]
  {
    var peaks := PeakIndices(power);
    if |peaks| == 0 then
      0.0
    else
      TallestPeakFirstIndex(power);
      Compress(ps, EqualMask(power, TallestPeak(power)))[0]
  }

  /** The conditions of IsLsChoice pick out at most one index. */
  lemma LsChoiceUnique(power: seq<real>, j1: int, j2: int)
    requires IsLsChoice(power, j1) && IsLsChoice(power, j2)
    ensures j1 == j2
  {
  }

  /** A curve that never rises, or never falls, has no peak, so ls_rotation
      reports 0 without raising. */
  lemma MonotoneHasNoPeak(ps: seq<real>, power: seq<real>)
    requires |ps| == |power|
    requires (forall i :: 0 <= i < |power| - 1 ==> power[i] <= power[i + 1]) ||
             (forall i :: 0 <= i < |power| - 1 ==> power[i] >= power[i + 1])
    ensures PeakIndices(power) == []
    ensures LsPeriod(ps, power) == 0.0
  {
    var r := PeakIndices(power);
    forall i | 0 <= i < |power| ensures !IsPeak(power, i) {
      if 1 <= i < |power| - 1 {
        assert power[i - 1] <= power[i] || power[i] >= power[i + 1];
      }
    }
    assert |r| > 0 ==> r[0] in r && IsPeak(power, r[0]);
  }

  /** A curve that rises strictly up to m and falls strictly after it has
      exactly one peak, at m, and ls_rotation reports the period at m. */
  lemma {:induction false} UnimodalHasOnePeak(ps: seq<real>, power: seq<real>, m: nat)
    requires |ps| == |power|
    requires 0 < m < |power| - 1
    requires forall i, j :: 0 <= i < j <= m ==> power[i] < power[j]
    requires forall i, j :: m <= i < j < |power| ==> power[i] > power[j]
    ensures PeakIndices(power) == [m]
    ensures LsPeriod(ps, power) == ps[m]
  {
    assert IsPeak(power, m);
    forall i | 0 <= i < |power| && i != m ensures !IsPeak(power, i) {
      if i < m {
        assert power[i] < power[i + 1];
      } else {
        assert power[i - 1] > power[i];
      }
    }
    WhereSingle(PeakMask(power), 0, m);
    var j := LsIndex(power);
    assert power[m] <= power[j];
    assert j == m;
  }

  /** The reported index need not be a peak: the source searches the whole
      curve for the tallest peak's height, so an earlier boundary or plateau
      point of equal power wins. Here the only peak is at index 2, yet the
      period at index 0 is reported. */
  lemma BoundaryPointCanBeReported()
    ensures PeakIndices([5.0, 1.0, 5.0, 1.0]) == [2]
    ensures LsPeriod([1.0, 2.0, 3.0, 4.0], [5.0, 1.0, 5.0, 1.0]) == 1.0
    ensures !IsPeak([5.0, 1.0, 5.0, 1.0], 0)
  {
  }
}
