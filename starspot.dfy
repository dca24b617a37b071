/** RotationModel: a light curve and the rotation periods measured from it
    by the Lomb-Scargle, autocorrelation and phase-dispersion estimators.
    The numerical routines the estimators call (the periodogram, the
    frequency grid, the autocorrelation and its peak statistics, the
    dispersion statistic, the phase fold and the Gaussian fit) are
    parameters of the methods that call them. */
module Starspot {
  import opened Wrappers
  import opened Selection
  import opened Peaks
  import opened GridSearch
  import opened Acf

  /** A double as numpy sees it: a finite value, NaN, or an infinity. */
  datatype Float = Finite(value: real) | NaN | Infinity(negative: bool)

  /** `np.isfinite`. */
  predicate IsFinite(x: Float) {
    x.Finite?
  }

  /** `sum(np.isfinite(flux))`: how many flux values are finite. */
  function CountFinite(flux: seq<Float>): (n: nat)
    ensures n <= |flux|
  {
    if flux == [] then 0
    else (if IsFinite(flux[0]) then 1 else 0) + CountFinite(flux[1..])
  }

  /** The check `len(flux) == sum(np.isfinite(flux))` holds exactly when
      every flux value is finite. */
  lemma {:induction false} CountFiniteAll(flux: seq<Float>)
    ensures CountFinite(flux) == |flux| <==> forall i :: 0 <= i < |flux| ==> IsFinite(flux[i])
  {
    if flux != [] {
      CountFiniteAll(flux[1..]);
      assert forall i :: 1 <= i < |flux| ==> flux[1..][i - 1] == flux[i];
    }
  }

  /** The exceptions the estimators raise. */
  datatype Error =
    | ZeroDivision   // 1./min_period or 1./max_period with a zero period
    | NonFiniteFlux  // the assertion that the flux has no NaN or infinity
    | EmptyPeriodGrid  // np.argmin of an empty array
    | NoAcfPeak       // xpeaks[0] of an empty peak list

  /** Number of points of the default frequency grid of ls_rotation. */
  const FreqSamples: nat := 100000

  /** `1./freq`, element by element, with the given floating-point reciprocal. */
  function Periods(freq: seq<real>, reciprocal: real -> real): (ps: seq<real>)
    ensures |ps| == |freq|
  {
    seq(|freq|, i requires 0 <= i < |freq| => reciprocal(freq[i]))
  }

  class RotationModel {
    // The light curve, fixed at construction.
    const time: seq<real>
    const flux: seq<Float>
    const fluxErr: seq<real>
    const rvar: real

    // Attributes that the estimators set; None until first set.
    var freq: Option<seq<real>>
    var power: Option<seq<real>>
    var lsPeriod: Option<real>

    var acfX: Option<seq<real>>
    var acfY: Option<seq<real>>
    var lags: Option<seq<real>>
    var acf: Option<seq<real>>
    var acfPeriod: Option<real>

    var pdmNbins: Option<int>
    var periodGrid: Option<seq<real>>
    var phis: Option<seq<real>>
    var pdmPeriod: Option<real>
    var sigma: Option<real>
    var mu: Option<real>
    var a: Option<real>
    var b: Option<real>
    var periodErr: Option<real>
    var phase: Option<seq<real>>

    /** What holds between the attributes whichever estimators have run, in
        whatever order and with whatever outcome. Each estimator keeps its
        own part and does not touch the fields of the other parts. */
    ghost predicate Valid()
      reads this
    {
      LsValid() && AcfValid() && PdmValid()
    }

    /** A power curve and a Lomb-Scargle period are only stored once a
        frequency grid is. */
    ghost predicate LsValid()
      reads this`lsPeriod, this`freq, this`power
    {
      (power.Some? ==> freq.Some?) && (lsPeriod.Some? ==> freq.Some?)
    }

    /** The kept lags and correlations are stored together, pair by pair,
        after the raw autocorrelation curve, and before any period. */
    ghost predicate AcfValid()
      reads this`acfX, this`acfY, this`lags, this`acf, this`acfPeriod
    {
      (acfX.Some? <==> acfY.Some?) &&
      (lags.Some? <==> acf.Some?) &&
      (lags.Some? ==> acfX.Some? && |lags.value| == |acf.value|) &&
      (acfPeriod.Some? ==> lags.Some?)
    }

    /** The grid, bin count and profile are stored together, one statistic
        per trial period; the period, its fit, its error (stored twice, as
        sigma and as period_err) and its phase fold are stored together. */
    ghost predicate PdmValid()
      reads this`pdmNbins, this`periodGrid, this`phis, this`pdmPeriod, this`sigma,
            this`mu, this`a, this`b, this`periodErr, this`phase
    {
      (pdmNbins.Some? <==> periodGrid.Some?) &&
      (periodGrid.Some? <==> phis.Some?) &&
      (phis.Some? ==> |phis.value| == |periodGrid.value|) &&
      (pdmPeriod.Some? ==> phis.Some?) &&
      (pdmPeriod.Some? <==> sigma.Some?) &&
      (pdmPeriod.Some? <==> mu.Some? && a.Some? && b.Some? && phase.Some?) &&
      sigma == periodErr
    }

    /** No estimator has run yet. */
    ghost predicate Unmeasured()
      reads this
    {
      freq.None? && power.None? && lsPeriod.None? &&
      acfX.None? && acfY.None? && lags.None? && acf.None? && acfPeriod.None? &&
      pdmNbins.None? && periodGrid.None? && phis.None? && pdmPeriod.None? &&
      sigma.None? && mu.None? && a.None? && b.None? && periodErr.None? && phase.None?
    }

    /** The range Rvar between the 5th and 95th percentile of the flux is
        computed with the given percentile function. */
    constructor (time: seq<real>, flux: seq<Float>, fluxErr: seq<real>,
                 percentile: (seq<Float>, real) -> real)
      ensures this.time == time && this.flux == flux && this.fluxErr == fluxErr
      ensures rvar == percentile(flux, 95.0) - percentile(flux, 5.0)
      ensures Unmeasured() && Valid()
    {
      this.time := time;
      this.flux := flux;
      this.fluxErr := fluxErr;
      rvar := percentile(flux, 95.0) - percentile(flux, 5.0);
      freq, power, lsPeriod := None, None, None;
      acfX, acfY, lags, acf, acfPeriod := None, None, None, None, None;
      pdmNbins, periodGrid, phis, pdmPeriod := None, None, None, None;
      sigma, mu, a, b, periodErr, phase := None, None, None, None, None, None;
    }

    /** Lomb-Scargle period. A frequency grid and power curve are used only
        when both are supplied, else the default grid of FreqSamples
        frequencies between 1/maxPeriod and 1/minPeriod; a supplied period is
        stored and returned as is; otherwise non-finite flux is refused, the
        power is computed on the grid (replacing any supplied power), and
        the period at the tallest peak is reported, or 0 without a peak.
        The period bounds default to 0.5 and 50 days, and nothing is
        supplied by default. */
    method LsRotation(linspace: (real, real, nat) -> seq<real>,
                      lombScargle: (seq<real>, seq<Float>, seq<real>) -> seq<real>,
                      reciprocal: real -> real,
                      minPeriod: real := 0.5, maxPeriod: real := 50.0,
                      inputFreq: Option<seq<real>> := None,
                      inputPower: Option<seq<real>> := None,
                      inputLsPeriod: Option<real> := None)
      returns (r: Result<real, Error>)
      requires LsValid()
      requires forall f :: |lombScargle(time, flux, f)| == |f|
      modifies this`freq, this`power, this`lsPeriod
      ensures LsValid()
      ensures
        var given := inputFreq.Some? && inputPower.Some?;
        if !given && (minPeriod == 0.0 || maxPeriod == 0.0) then
          r == Err(ZeroDivision) &&
          freq == old(freq) && power == old(power) && lsPeriod == old(lsPeriod)
        else
          var f := if given then inputFreq.value
                   else linspace(1.0 / maxPeriod, 1.0 / minPeriod, FreqSamples);
          var storedPower := if given then inputPower else old(power);
          freq == Some(f) &&
          if inputLsPeriod.Some? then
            r == Ok(inputLsPeriod.value) && lsPeriod == inputLsPeriod && power == storedPower
          else if CountFinite(flux) != |flux| then
            r == Err(NonFiniteFlux) && lsPeriod == old(lsPeriod) && power == storedPower
          else
            var pw := lombScargle(time, flux, f);
            var p := LsPeriod(Periods(f, reciprocal), pw);
            r == Ok(p) && power == Some(pw) && lsPeriod == Some(p)
    {
      if inputFreq.Some? && inputPower.Some? {
        freq := inputFreq;
        power := inputPower;
      } else {
        if minPeriod == 0.0 || maxPeriod == 0.0 {
          return Err(ZeroDivision);
        }
        freq := Some(linspace(1.0 / maxPeriod, 1.0 / minPeriod, FreqSamples));
      }

      if inputLsPeriod.Some? {
        lsPeriod := inputLsPeriod;
        return Ok(inputLsPeriod.value);
      }

      if CountFinite(flux) != |flux| {
        return Err(NonFiniteFlux);
      }

      var pw := lombScargle(time, flux, freq.value);
      power := Some(pw);
      var ps := Periods(freq.value, reciprocal);
      var peaks := PeakIndices(pw);
      var p: real;
      if |peaks| == 0 {
        p := 0.0;
      } else {
        TallestPeakFirstIndex(pw);
        p := Compress(ps, EqualMask(pw, TallestPeak(pw)))[0];
      }
      lsPeriod := Some(p);
      return Ok(p);
    }

    /** Autocorrelation period. The cadence name is turned into days, the
        autocorrelation curve is computed, the (lag, correlation) pairs with
        lag above the cutoff are kept, and the first of the peaks, ranked by
        height, is the period. By default the smoothing window is 9, the
        cutoff 0, the filter window 99 and the filter order 3. */
    method AcfRotation(interval: Interval,
                       simpleAcf: (seq<real>, seq<Float>, Interval, real, int, int)
                                    -> (seq<real>, seq<real>, seq<real>, seq<real>),
                       peakStatistics: (seq<real>, seq<real>) -> (seq<real>, seq<real>),
                       smooth: real := 9.0, cutoff: real := 0.0,
                       windowLength: int := 99, polyorder: int := 3)
      returns (r: Result<real, Error>)
      requires AcfValid()
      requires |simpleAcf(time, flux, Cadence(interval), smooth, windowLength, polyorder).0|
            == |simpleAcf(time, flux, Cadence(interval), smooth, windowLength, polyorder).1|
      modifies this`acfX, this`acfY, this`lags, this`acf, this`acfPeriod
      ensures AcfValid()
      ensures
        var c := simpleAcf(time, flux, Cadence(interval), smooth, windowLength, polyorder);
        var m := AboveMask(c.0, cutoff);
        var xpeaks := peakStatistics(Compress(c.0, m), Compress(c.1, m)).0;
        acfX == Some(c.2) && acfY == Some(c.3) &&
        lags == Some(Compress(c.0, m)) && acf == Some(Compress(c.1, m)) &&
        if xpeaks == [] then r == Err(NoAcfPeak) && acfPeriod == old(acfPeriod)
        else r == Ok(xpeaks[0]) && acfPeriod == Some(xpeaks[0])
    {
      var days := Cadence(interval);
      var c := simpleAcf(time, flux, days, smooth, windowLength, polyorder);
      acfX, acfY := Some(c.2), Some(c.3);

      var m := AboveMask(c.0, cutoff);
      var peaks := peakStatistics(Compress(c.0, m), Compress(c.1, m));
      lags := Some(Compress(c.0, m));
      acf := Some(Compress(c.1, m));
      if peaks.0 == [] {
        return Err(NoAcfPeak);
      }
      acfPeriod := Some(peaks.0[0]);
      return Ok(peaks.0[0]);
    }

    /** Phase-dispersion period. The statistic is evaluated at every trial
        period of the grid, the first trial period with the smallest
        statistic is the period, and the Gaussian fit to the profile gives
        its uncertainty; an empty grid fails after the grid, bin count and
        (empty) profile are stored. The bin count defaults to 10. */
    method PdmRotation(grid: seq<real>,
                       phi: (int, real, seq<real>, seq<Float>) -> real,
                       estimateUncertainty: (seq<real>, seq<real>, real) -> (real, real, real, real),
                       calcPhase: (real, seq<real>) -> seq<real>,
                       nbins: int := 10)
      returns (r: Result<(real, real), Error>)
      requires PdmValid()
      modifies this`pdmNbins, this`periodGrid, this`phis, this`pdmPeriod,
               this`sigma, this`mu, this`a, this`b, this`periodErr, this`phase
      ensures PdmValid()
      ensures pdmNbins == Some(nbins) && periodGrid == Some(grid)
      ensures phis == Some(Profile(phi, nbins, grid, time, flux))
      ensures grid == [] ==>
        r == Err(EmptyPeriodGrid) &&
        pdmPeriod == old(pdmPeriod) && sigma == old(sigma) && mu == old(mu) &&
        a == old(a) && b == old(b) && periodErr == old(periodErr) && phase == old(phase)
      ensures grid != [] ==>
        var profile := Profile(phi, nbins, grid, time, flux);
        var p := grid[ArgMin(profile)];
        var fit := estimateUncertainty(grid, profile, p);
        r == Ok((p, fit.0)) &&
        pdmPeriod == Some(p) && sigma == Some(fit.0) && periodErr == Some(fit.0) &&
        mu == Some(fit.1) && a == Some(fit.2) && b == Some(fit.3) &&
        phase == Some(calcPhase(p, time))
    {
      var values := EvaluateGrid(phi, nbins, grid, time, flux);
      pdmNbins, periodGrid, phis := Some(nbins), Some(grid), Some(values);
      if |values| == 0 {
        return Err(EmptyPeriodGrid);
      }
      r := SelectPdmPeriod(estimateUncertainty, calcPhase);
    }

    /** The second half of pdm_rotation, on the stored grid and profile: the
        first trial period with the smallest statistic, the Gaussian fit's
        error and parameters, and the phase fold at that period. */
    method SelectPdmPeriod(estimateUncertainty: (seq<real>, seq<real>, real) -> (real, real, real, real),
                           calcPhase: (real, seq<real>) -> seq<real>)
      returns (r: Result<(real, real), Error>)
      requires PdmValid() && periodGrid.Some? && |periodGrid.value| > 0
      modifies this`pdmPeriod, this`sigma, this`mu, this`a, this`b, this`periodErr, this`phase
      ensures PdmValid()
      ensures
        var grid, profile := periodGrid.value, phis.value;
        var p := grid[ArgMin(profile)];
        var fit := estimateUncertainty(grid, profile, p);
        r == Ok((p, fit.0)) &&
        pdmPeriod == Some(p) && sigma == Some(fit.0) && periodErr == Some(fit.0) &&
        mu == Some(fit.1) && a == Some(fit.2) && b == Some(fit.3) &&
        phase == Some(calcPhase(p, time))
    {
      var grid, values := periodGrid.value, phis.value;
      var p := grid[ArgMin(values)];
      var fit := estimateUncertainty(grid, values, p);
      pdmPeriod := Some(p);
      sigma, mu, a, b := Some(fit.0), Some(fit.1), Some(fit.2), Some(fit.3);
      periodErr := Some(fit.0);
      phase := Some(calcPhase(p, time));
      return Ok((p, fit.0));
    }
  }
}
