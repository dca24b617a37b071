/** The post-processing of the autocorrelation estimator
    (RotationModel.acf_rotation): the cadence names, and the lag cutoff that
    decides which (lag, correlation) pairs are kept. */
module Acf {
  import opened Selection

  /** The `interval` argument: a cadence name or a number of days. */
  datatype Interval = Named(name: string) | Days(days: real)

  /** Days between observations at TESS and at Kepler/K2 long cadence. */
  const TessCadence: real := 0.00138889
  const KeplerCadence: real := 0.02043365

  /** "TESS" and "Kepler" become their cadence in days; a number of days, or
      any other name, is passed on unchanged. */
  function Cadence(interval: Interval): (r: Interval)
    ensures interval == Named("TESS") ==> r == Days(TessCadence)
    ensures interval == Named("Kepler") ==> r == Days(KeplerCadence)
    ensures interval != Named("TESS") && interval != Named("Kepler") ==> r == interval
    ensures r.Named? ==> r == interval
  {
    var i := if interval == Named("TESS") then Days(TessCadence) else interval;
    if i == Named("Kepler") then Days(KeplerCadence) else i
  }

  /** The mask `lags > cutoff`. */
  function AboveMask(lags: seq<real>, cutoff: real): (m: seq<bool>)
    ensures |m| == |lags|
  {
    seq(|lags|, i requires 0 <= i < |lags| => lags[i] > cutoff)
  }

  /** Reference definition: the (lag, correlation) pairs whose lag exceeds
      the cutoff, in their original order. */
  function KeptPairs(lags: seq<real>, acf: seq<real>, cutoff: real): seq<(real, real)>
    requires |lags| == |acf|
  {
    if lags == [] then []
    else (if lags[0] > cutoff then [(lags[0], acf[0])] else [])
         + KeptPairs(lags[1..], acf[1..], cutoff)
  }

  /** The pairs at the given indices. */
  function PairsAt(lags: seq<real>, acf: seq<real>, idx: seq<nat>): seq<(real, real)>
    requires |lags| == |acf| && InRange(idx, |lags|)
  {
    seq(|idx|, k requires 0 <= k < |idx| => (lags[idx[k]], acf[idx[k]]))
  }

  /** PairsAt distributes over concatenation of index lists. */
  lemma PairsAtConcat(lags: seq<real>, acf: seq<real>, idx1: seq<nat>, idx2: seq<nat>)
    requires |lags| == |acf| && InRange(idx1, |lags|) && InRange(idx2, |lags|)
    ensures InRange(idx1 + idx2, |lags|)
    ensures PairsAt(lags, acf, idx1 + idx2) == PairsAt(lags, acf, idx1) + PairsAt(lags, acf, idx2)
  {
  }

  /** One step of KeptPairs on a suffix. */
  lemma SuffixStep(lags: seq<real>, acf: seq<real>, cutoff: real, lo: nat)
    requires |lags| == |acf| && lo < |lags|
    ensures KeptPairs(lags[lo..], acf[lo..], cutoff)
         == (if lags[lo] > cutoff then [(lags[lo], acf[lo])] else [])
            + KeptPairs(lags[lo + 1..], acf[lo + 1..], cutoff)
  {
  }

  lemma {:induction false} PairsAtFrom(lags: seq<real>, acf: seq<real>, cutoff: real, lo: nat)
    requires |lags| == |acf| && lo <= |lags|
    ensures InRange(WhereFrom(AboveMask(lags, cutoff), lo), |lags|)
    ensures PairsAt(lags, acf, WhereFrom(AboveMask(lags, cutoff), lo))
         == KeptPairs(lags[lo..], acf[lo..], cutoff)
    decreases |lags| - lo
  {
    var mask := AboveMask(lags, cutoff);
    var w := WhereFrom(mask, lo);
    if lo < |lags| {
      PairsAtFrom(lags, acf, cutoff, lo + 1);
      var rest := WhereFrom(mask, lo + 1);
      var head: seq<nat> := if mask[lo] then [lo] else [];
      assert w == head + rest;
      PairsAtConcat(lags, acf, head, rest);
      SuffixStep(lags, acf, cutoff, lo);
    }
  }

  /** `lags[m]` and `acf[m]` with `m = lags > cutoff` are exactly the pairs
      whose lag exceeds the cutoff: same order, and the k-th kept lag still
      belongs with the k-th kept correlation. */
  lemma CutoffKeepsPairs(lags: seq<real>, acf: seq<real>, cutoff: real)
    requires |lags| == |acf|
    ensures |Compress(lags, AboveMask(lags, cutoff))| == |Compress(acf, AboveMask(lags, cutoff))|
    ensures Zip(Compress(lags, AboveMask(lags, cutoff)), Compress(acf, AboveMask(lags, cutoff)))
         == KeptPairs(lags, acf, cutoff)
  {
    var idx := Where(AboveMask(lags, cutoff));
    PairsAtFrom(lags, acf, cutoff, 0);
    assert lags[0..] == lags && acf[0..] == acf;
    assert Zip(Pick(lags, idx), Pick(acf, idx)) == PairsAt(lags, acf, idx);
  }

  /** Every kept lag exceeds the cutoff, and every lag above the cutoff is
      kept, so cutting the kept lags again keeps them all. */
  lemma CutoffIdempotent(lags: seq<real>, cutoff: real)
    ensures forall k :: 0 <= k < |Compress(lags, AboveMask(lags, cutoff))| ==>
              Compress(lags, AboveMask(lags, cutoff))[k] > cutoff
    ensures Compress(Compress(lags, AboveMask(lags, cutoff)),
                     AboveMask(Compress(lags, AboveMask(lags, cutoff)), cutoff))
         == Compress(lags, AboveMask(lags, cutoff))
  {
    var kept := Compress(lags, AboveMask(lags, cutoff));
    var idx := Where(AboveMask(lags, cutoff));
    forall k | 0 <= k < |kept|
      ensures kept[k] > cutoff
    {
      assert kept[k] == lags[idx[k]] && idx[k] in idx;
    }
    CompressAllTrue(kept, AboveMask(kept, cutoff));
  }
}
