# starspot RotationModel in Dafny

A model of `RotationModel` from `starspot`. The class holds a light curve
(time, flux, flux uncertainty). It measures a stellar rotation period with
three estimators:

- **Lomb–Scargle** (`ls_rotation`). It finds the strict interior local maxima
  of the periodogram and reports the period at the first index of the whole
  curve whose power equals the tallest peak's height. It reports 0 when there
  is no peak.
- **Autocorrelation** (`acf_rotation`). It turns a cadence name into days,
  keeps the (lag, correlation) pairs whose lag exceeds the cutoff, and reports
  the first entry of the ranked peak list.
- **Phase dispersion minimisation** (`pdm_rotation`). It fills a zeroed array
  with the dispersion statistic at every trial period. `np.argmin` then picks
  the first trial period with the smallest statistic. The Gaussian fit's error
  and parameters are stored next to it.

Files, one module each:

- `wrappers.dfy`: `Option` and `Result`.
- `selection.dfy`: numpy boolean masks. `Where` is `np.nonzero`, giving the
  indices where a mask holds in ascending order. `Pick` is fancy indexing and
  `Compress` is `s[mask]`.
- `peaks.dfy`: the peak list and the Lomb–Scargle period.
- `grid_search.dfy`: the dispersion profile, the loop that fills it, and
  `np.argmin`.
- `acf.dfy`: cadence names and the lag cutoff.
- `starspot.dfy`: the `RotationModel` class.

The external numerical routines are parameters of the methods that call them,
as total functions. These are `phi`, `calc_phase`, `estimate_uncertainty`,
`simple_acf`, `get_peak_statistics`, the Lomb–Scargle power, `np.linspace`,
`np.percentile` and the element-wise float reciprocal `1./freq`. Nothing is
assumed about their values. Where the code needs them to return two sequences
of one length, the method requires it:

- the periodogram has one power per frequency;
- `simple_acf` returns as many lags as correlations.

Flux values are `Float` (finite, NaN or infinite), so that `np.isfinite` has
something to test. All other numbers are `real`. Beyond comparisons and the
external routines, the model does arithmetic in two places only:
`LsRotation` computes the grid bounds `1.0 / maxPeriod` and `1.0 / minPeriod`,
and the constructor subtracts the 5th from the 95th percentile.

Attributes that Python sets only when an estimator runs are `Option` fields.
They are `None` until first set. Each method's `modifies` clause names exactly
the attributes the source assigns. Each method spells out its new state on
every path, error paths included, matching the order of assignments in the
source:

- `ls_rotation` has already stored `freq`, and possibly `power`, when it raises
  on non-finite flux;
- `pdm_rotation` has already stored the bin count, the grid and the (empty)
  profile when `np.argmin` raises on an empty grid;
- `acf_rotation` has already stored the raw and the cut curves when
  `xpeaks[0]` raises.

`Valid` is the invariant over the stored attributes. It splits into one part
per estimator, and each estimator keeps its own part.

On these points the behaviour of the code is easy to misread:

- The PDM period is the grid point at the argmin. The fit's `mu` does not
  replace it: `mu` is only stored. The returned error is the fit's first
  output, which is stored both as `sigma` and as `period_err`.
- Non-finite flux is refused only by `ls_rotation`, and only when no period is
  supplied. `acf_rotation` and `pdm_rotation` do not check it.
- An empty period grid fails at `np.argmin`, after the grid has been evaluated
  and stored, not up front.
- The Lomb–Scargle period need not lie at a peak. The tallest peak's height is
  looked up in the whole curve, so an earlier boundary or plateau point with
  the same power wins. `Peaks.BoundaryPointCanBeReported` shows a curve where
  this happens.
- A supplied power curve has no effect on the reported period: line 103
  overwrites it.

## Model

| member | source | states |
|---|---|---|
| `Selection.Where` | build/lib/starspot/starspot.py:107-108 | an index is in the result exactly when it is in range and the mask holds there; the indices ascend |
| `Selection.Pick` | build/lib/starspot/starspot.py:113 | fancy indexing `power[peaks]` has one entry per index, the entry of `s` at that index |
| `Selection.Compress` | build/lib/starspot/starspot.py:169-173 | `s[mask]` (also at line 113) is the entries of `s` at the ascending indices where the mask holds, one per such index and in index order; it is no longer than `s`, keeps every entry where the mask holds, and keeps nothing from a position where it does not |
| `Selection.CompressAllTrue` | build/lib/starspot/starspot.py:169-173 | `s[mask]` with a mask that holds at every position is `s` itself |
| `Selection.WhereFirst` | build/lib/starspot/starspot.py:113 | when the mask holds somewhere, the first index of the masked result is the smallest index where it holds |
| `Peaks.PeakMask` | build/lib/starspot/starspot.py:107-108 | the comprehension's condition has one entry per power value and never holds at the first or last index |
| `Peaks.PeakIndices` | build/lib/starspot/starspot.py:107-108 | `i` is listed exactly when `1 <= i <= n-2` and `power[i-1] < power[i] > power[i+1]`; the list ascends, so boundary and plateau points are never listed |
| `Peaks.Max` | build/lib/starspot/starspot.py:113 | `max` of a non-empty sequence is one of its elements and is at least every element |
| `Peaks.TallestPeak` | build/lib/starspot/starspot.py:113 | `max(power[peaks])` is the height of some peak and is at least the height of every peak |
| `Peaks.EqualMask` | build/lib/starspot/starspot.py:113 | `power == v` has one entry per power value, and holds somewhere exactly when `v` occurs in the curve |
| `Peaks.TallestPeakFirstIndex` | build/lib/starspot/starspot.py:113 | the mask `power == max(power[peaks])` holds somewhere, and its first index meets the reported-index conditions |
| `Peaks.LsIndex` | build/lib/starspot/starspot.py:113 | with at least one peak, the reported index `j` has the power of some peak and at least every peak's power, and no earlier index of the whole curve has power `power[j]` |
| `Peaks.LsPeriod` | build/lib/starspot/starspot.py:106-113 | with no peak the period is 0; otherwise it is `ps[j]` for the index `j` described by `LsIndex` |
| `Peaks.LsChoiceUnique` | build/lib/starspot/starspot.py:113 | at most one index satisfies the reported-index conditions, so the reported period is determined by them |
| `Peaks.MonotoneHasNoPeak` | build/lib/starspot/starspot.py:107-111 | a curve that never rises or never falls has no peak, so the period is 0 and nothing is raised |
| `Peaks.UnimodalHasOnePeak` | build/lib/starspot/starspot.py:107-113 | a curve that rises strictly to `m` and falls strictly after it has the single peak `[m]`, and the reported period is `ps[m]` |
| `Peaks.BoundaryPointCanBeReported` | build/lib/starspot/starspot.py:113 | for power `[5, 1, 5, 1]` the only peak is index 2, yet the period at boundary index 0 is reported |
| `GridSearch.ArgMin` | build/lib/starspot/starspot.py:217 | `np.argmin` returns an index whose entry is at most every entry, and every earlier entry is strictly larger (first occurrence) |
| `GridSearch.ArgMinUnique` | build/lib/starspot/starspot.py:217 | any index with the first-occurrence minimum property equals `ArgMin` |
| `GridSearch.ArgMinOfChunks` | build/lib/starspot/starspot.py:217 | the argmin of `a + b` is the argmin of `a` when its minimum is at most `b`'s, otherwise `b`'s argmin offset by the length of `a` |
| `GridSearch.Profile` | build/lib/starspot/starspot.py:208-214 | the filled `phis` has one statistic per trial period, defined entry by entry as `phi` at that period |
| `GridSearch.ProfilePointwise` | build/lib/starspot/starspot.py:211-212 | equal trial periods in two grids get equal statistics: each entry depends only on its own grid point |
| `GridSearch.ProfileOfChunks` | build/lib/starspot/starspot.py:208-214 | the profile of a grid split in two chunks is the concatenation of the chunks' profiles |
| `GridSearch.ChunkedSearch` | build/lib/starspot/starspot.py:208-218 | searching a grid in two chunks and keeping the left chunk's minimum on ties selects the same period as searching the whole grid |
| `GridSearch.EvaluateGrid` | build/lib/starspot/starspot.py:208-214 | the filled array has one entry per trial period, and entry `i` is `phi(nbins, grid[i], time, flux)` |
| `Acf.Cadence` | build/lib/starspot/starspot.py:154-157 | "TESS" becomes 0.00138889 days and "Kepler" becomes 0.02043365 days; a number, or any other name, passes through unchanged |
| `Acf.AboveMask` | build/lib/starspot/starspot.py:168 | the mask `lags > cutoff` has one entry per lag, defined entry by entry |
| `Acf.CutoffKeepsPairs` | build/lib/starspot/starspot.py:168-173 | `lags[m]` and `acf[m]` for `m = lags > cutoff`, zipped, equal the reference list of the pairs whose lag exceeds the cutoff, in their original order and pairing |
| `Acf.CutoffIdempotent` | build/lib/starspot/starspot.py:168-173 | every kept lag exceeds the cutoff, so applying the cutoff again keeps every pair |
| `Starspot.CountFinite` | build/lib/starspot/starspot.py:100 | `sum(np.isfinite(flux))` is at most the number of flux values |
| `Starspot.Periods` | build/lib/starspot/starspot.py:106 | `1./freq` has one period per frequency, defined entry by entry by the reciprocal |
| `Starspot.CountFiniteAll` | build/lib/starspot/starspot.py:100-101 | `len(flux) == sum(np.isfinite(flux))` holds exactly when every flux value is finite |
| `Starspot.RotationModel.constructor` | build/lib/starspot/starspot.py:48-52 | stores time, flux and flux errors; Rvar is the 95th minus the 5th percentile of the flux; no estimator attribute is set |
| `Starspot.RotationModel.LsRotation` | build/lib/starspot/starspot.py:69-114 | the period bounds default to 0.5 and 50 days; a supplied grid is used only with a supplied power, else the default grid (a zero period bound raises); a supplied period is stored and returned with no flux check; non-finite flux raises; otherwise the power is recomputed and `LsPeriod` of `1/freq` and that power is stored and returned |
| `Starspot.RotationModel.AcfRotation` | build/lib/starspot/starspot.py:135-175 | with defaults smoothing 9, cutoff 0, filter window 99 and order 3, it stores the raw curves, then the pairs with lag above the cutoff; returns and stores the first ranked peak, or raises on an empty peak list with the period unchanged |
| `Starspot.RotationModel.PdmRotation` | build/lib/starspot/starspot.py:192-235 | with 10 bins by default, it stores bin count, grid and the profile of `phi` over the grid; an empty grid raises with the period and fit unchanged; otherwise stores and returns the first argmin period and the fit's error |
| `Starspot.RotationModel.SelectPdmPeriod` | build/lib/starspot/starspot.py:217-235 | on a stored non-empty grid and profile, stores the grid point at the first argmin, the four outputs of the Gaussian fit (error as both `sigma` and `period_err`) and the phase fold at that period |

## Left out

- The bodies of `phi`, `calc_phase`, `phase_bins`, `estimate_uncertainty`,
  `gaussian`, `simple_acf` and `get_peak_statistics` are not part of this
  model. `rotation_tools` and `phase_dispersion_minimization` are not among
  the modelled files, so these routines are method parameters with no
  assumed behaviour. In particular, the height ranking of
  `get_peak_statistics`, the binned pooled variance and the Gaussian fit are
  not modelled.
- The Lomb–Scargle power (astropy), `np.linspace` and `np.percentile` are
  floating-point library numerics, so they too are parameters.
- The element-wise reciprocal `1./freq` is also a parameter; its value at a
  zero frequency (numpy's infinity) is up to that parameter.
- Floating point is not modelled. Periods, powers and statistics are reals
  compared exactly. `np.argmin` returns the first NaN when there is one, and
  the model does not.
- Integer type is ignored: `ls_period = 0` is the integer 0 in Python and
  `0.0` in the model.
- The arguments `high_pass` and `samples_per_peak` of `ls_rotation` are never
  read by the source, so they are omitted.
- The branch `hasattr(self.pdm_period, 'len')` (lines 219-220) tests for an
  attribute numpy scalars never have, so `pdm_period` is the grid point
  directly.
- `Error.NonFiniteFlux` models the `assert` at line 100. Python drops
  assertions when run with `-O`, and the model does not capture that mode:
  there the power is computed on non-finite flux.
- `Error.ZeroDivision` models `1./max_period` and `1./min_period` (line 94)
  raising for a zero Python number. A zero numpy scalar gives an infinity
  instead, and the model does not capture that case.
- The `trange` progress bar (line 211) is console output only.
- Aliasing of arrays is not modelled. Python stores references to arrays it
  is given or builds, and the model stores their values. This applies to:
  - `self.time`, `self.flux` and `self.flux_err` (lines 49-51);
  - `self.freq` and `self.power` from `input_freq` and `input_power`
    (lines 91-92);
  - `self.period_grid` (line 206);
  - the filled `self.phis` (line 214).

  If a caller later mutates one of these arrays, Python's attribute changes
  with it. For example, mutating `flux` after construction leaves `Rvar`
  stale. The model's fields, including the `const` light curve, keep the
  values they were given.
- An unrecognised cadence name reaches `simple_acf` unchanged. What that
  routine then does is up to the parameter.
- `gp_rotation` and `build_gp` (Gaussian-process/MCMC sampling with
  jax/numpyro) are out of scope.
- All plotting is out of scope: `lc_plot`, `ls_plot`, `acf_plot`, `pdm_plot`,
  `big_plot` (including its method-name lookup), `plot_prediction` and
  `plot_posterior`.
- `setup.py` is packaging only.
