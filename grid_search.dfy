/** The grid search of the phase-dispersion estimator
    (RotationModel.pdm_rotation): the statistic evaluated at every trial
    period, and the first grid point at which it is smallest. */
module GridSearch {

  /** k is the index `np.argmin` returns: a smallest entry, and every entry
      before it is strictly larger. */
  predicate IsFirstMin(s: seq<real>, k: int) {
    0 <= k < |s| &&
    (forall j :: 0 <= j < |s| ==> s[k] <= s[j]) &&
    (forall j :: 0 <= j < k ==> s[k] < s[j])
  }

  /** `np.argmin`: scan left to right, move only on a strictly smaller entry. */
  function ArgMin(s: seq<real>): (k: nat)
    requires |s| > 0
    ensures IsFirstMin(s, k)
  {
    if |s| == 1 then 0
    else
      var init := s[..|s| - 1];
      var k := ArgMin(init);
      assert forall j :: 0 <= j < |s| - 1 ==> init[j] == s[j];
      if s[|s| - 1] < s[k] then |s| - 1 else k
  }

  /** The first-occurrence minimum is unique, so ArgMin is determined by it. */
  lemma ArgMinUnique(s: seq<real>, k: int)
    requires IsFirstMin(s, k)
    ensures k == ArgMin(s)
  {
  }

  /** The argmin of two chunks put together follows from the argmins of the
      chunks: the left one wins ties. */
  lemma {:induction false} ArgMinOfChunks(a: seq<real>, b: seq<real>)
    requires |a| > 0 && |b| > 0
    ensures ArgMin(a + b) == if a[ArgMin(a)] <= b[ArgMin(b)] then ArgMin(a) else |a| + ArgMin(b)
  {
    var s := a + b;
    var i, j := ArgMin(a), ArgMin(b);
    assert forall k :: 0 <= k < |a| ==> s[k] == a[k];
    assert forall k :: 0 <= k < |b| ==> s[|a| + k] == b[k];
    if a[i] <= b[j] {
      forall k | 0 <= k < |s| ensures s[i] <= s[k] {
        if k >= |a| {
          assert s[k] == b[k - |a|];
        }
      }
      ArgMinUnique(s, i);
    } else {
      var c := |a| + j;
      forall k | 0 <= k < |s| ensures s[c] <= s[k] {
        if k >= |a| {
          assert s[k] == b[k - |a|];
        }
      }
      forall k | 0 <= k < c ensures s[c] < s[k] {
        if k >= |a| {
          assert s[k] == b[k - |a|];
        }
      }
      ArgMinUnique(s, c);
    }
  }

  /** The dispersion profile: the statistic phi(nbins, p, time, flux) at
      every trial period p of the grid. */
  function Profile<X>(phi: (int, real, seq<real>, seq<X>) -> real, nbins: int,
                      grid: seq<real>, time: seq<real>, flux: seq<X>): (r: seq<real>)
    ensures |r| == |grid|
  {
    seq(|grid|, i requires 0 <= i < |grid| => phi(nbins, grid[i], time, flux))
  }

  /** Every entry of the profile depends on its own trial period only. */
  lemma ProfilePointwise<X>(phi: (int, real, seq<real>, seq<X>) -> real, nbins: int,
                            grid1: seq<real>, grid2: seq<real>, i: nat, j: nat,
                            time: seq<real>, flux: seq<X>)
    requires i < |grid1| && j < |grid2| && grid1[i] == grid2[j]
    ensures Profile(phi, nbins, grid1, time, flux)[i] == Profile(phi, nbins, grid2, time, flux)[j]
  {
  }

  /** Evaluating a grid in two chunks gives the profile of the whole grid. */
  lemma ProfileOfChunks<X>(phi: (int, real, seq<real>, seq<X>) -> real, nbins: int,
                           grid1: seq<real>, grid2: seq<real>, time: seq<real>, flux: seq<X>)
    ensures Profile(phi, nbins, grid1 + grid2, time, flux)
         == Profile(phi, nbins, grid1, time, flux) + Profile(phi, nbins, grid2, time, flux)
  {
  }

  /** A search over a grid split in two chunks selects the same trial period
      as the search over the whole grid, combining the chunks' own minima. */
  lemma ChunkedSearch<X>(phi: (int, real, seq<real>, seq<X>) -> real, nbins: int,
                         grid1: seq<real>, grid2: seq<real>, time: seq<real>, flux: seq<X>)
    requires |grid1| > 0 && |grid2| > 0
    ensures
      var p1, p2 := Profile(phi, nbins, grid1, time, flux), Profile(phi, nbins, grid2, time, flux);
      var i, j := ArgMin(p1), ArgMin(p2);
      (grid1 + grid2)[ArgMin(Profile(phi, nbins, grid1 + grid2, time, flux))]
        == if p1[i] <= p2[j] then grid1[i] else grid2[j]
  {
    var p1, p2 := Profile(phi, nbins, grid1, time, flux), Profile(phi, nbins, grid2, time, flux);
    ProfileOfChunks(phi, nbins, grid1, grid2, time, flux);
    ArgMinOfChunks(p1, p2);
  }

  /** The loop of pdm_rotation: a zeroed array of one entry per trial period,
      filled in grid order with the statistic at that period. */
  method EvaluateGrid<X>(phi: (int, real, seq<real>, seq<X>) -> real, nbins: int,
                         grid: seq<real>, time: seq<real>, flux: seq<X>)
    returns (phis: seq<real>)
    ensures |phis| == |grid|
    ensures forall i :: 0 <= i < |grid| ==> phis[i] == phi(nbins, grid[i], time, flux)
    ensures phis == Profile(phi, nbins, grid, time, flux)
  {
    var n := |grid|;
    var a := new real[n](_ => 0.0);
    for i := 0 to n
      invariant forall k :: 0 <= k < i ==> a[k] == phi(nbins, grid[k], time, flux)
    {
      a[i] := phi(nbins, grid[i], time, flux);
    }
    phis := a[..];
  }
}
