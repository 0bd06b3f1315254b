# rolling_average, verified

A Dafny model of `rolling_average` from the repo_stats package (a tool that
collects citation and repository-activity statistics and plots them). The
function smooths a monthly series with a centred moving mean:

1. an even window is decreased by exactly one, so that a window has a middle;
2. the series is convolved with `np.ones(window)` in numpy's `"valid"` mode,
   and every entry is divided by the window;
3. the averaged series is returned together with the window actually used.

The model works over exact `real` numbers, not floating point. numpy's
`convolve` is modelled on its own (`Convolve` module): it swaps its operands
when the kernel is longer than the input, refuses an empty operand, and
`np.ones` refuses a negative size. `rolling_average` is a total function
returning either the pair `(averages, window)` or the error numpy raises.
Inputs are immutable sequences, so the caller's series is never modified;
only a new sequence and the window are returned.

The caller `author_time_plot` draws each averaged series against
`months[cut_idx:-cut_idx]` with `cut_idx = window // 2`. The `Plot` module
models that slice with Python's slice semantics and proves when it lines up
with the averages.

Files:
- `convolve.dfy` (module `Convolve`): `Sum` and its lemmas, dot product,
  `np.ones`, reversal, "valid" correlation and convolution, and the lemmas
  that a kernel of ones yields window sums.
- `utilities.dfy` (module `Utilities`): window coercion, `RollingAverage`,
  its properties, and a running-sum method that computes the same result.
- `plot.dfy` (module `Plot`): Python slicing, the plot's month slice as
  written and as intended, and their alignment with the averages.
- `tests.dfy` (module `Tests`): the unit test's example, proved exactly.

A window at least as long as the series is not an error: the code passes it
to numpy, which returns a result:
- a window equal to the length gives one average;
- a longer window gives `w - n + 1` copies of `Sum(series) / w`.

`RollingAverageOversized` states the second case. The unit test compares with
`rtol=1e0`, a relative tolerance of 100%. The model proves the expected values
exactly.

## Model

| member | source | states |
|---|---|---|
| Utilities.EffectiveWindow | repo_stats/utilities.py:24-26 | the window used is odd; it is the input when that is odd, otherwise the input minus exactly one |
| Utilities.EffectiveWindowIdempotent | repo_stats/plot.py:50-51 | coercing an already coerced window changes nothing, so it is never decremented twice |
| Utilities.RollingAverage | repo_stats/utilities.py:6-30 | succeeds exactly when the series is non-empty and the window is at least 1; a window below 1 fails with numpy's negative-dimension error; on success the returned window is the coerced one |
| Utilities.RollingAverageValid | repo_stats/utilities.py:28 | for 1 <= w <= n the result has n - w + 1 entries and entry i is the mean of inputs i .. i + w - 1 |
| Utilities.RollingAverageOversized | repo_stats/utilities.py:28 | for a window longer than the series the result has w - n + 1 entries, each the series' sum divided by w |
| Utilities.RollingAverageCentredLength | repo_stats/utilities.py:28-30 | the result is shorter than the input by w // 2 entries at each end: length n - 2 * (w // 2) |
| Utilities.RollingAverageUnitWindow | repo_stats/utilities.py:24-28 | a window of 1, or of 2 coerced to 1, returns the series unchanged with window 1 |
| Utilities.RollingAverageBounds | repo_stats/utilities.py:28 | for 1 <= w <= n, if every input lies in [lo, hi], so does every average; for w > n the entries are Sum / w and need not lie in the input's range |
| Utilities.RollingAverageCharacterised | repo_stats/utilities.py:28-30 | any series of n - w + 1 window means is exactly the returned result |
| Utilities.RollingAverageRunningSum | repo_stats/utilities.py:24-30 | a running-sum computation returns the same window and the same averages as the function |
| Convolve.ConvolveValid | repo_stats/utilities.py:28 | the convolution succeeds exactly when neither operand is empty; its length is the length difference plus one, whichever operand is longer |
| Convolve.ConvolveOnesWindowSums | repo_stats/utilities.py:28 | convolving with w ones, w <= n, gives n - w + 1 entries, entry i being the sum of inputs i .. i + w - 1 |
| Convolve.ConvolveOnesOversized | repo_stats/utilities.py:28 | convolving with more ones than inputs gives w - n + 1 entries, each the sum of the whole input |
| Tests.ArangeTenWindowThree | test/tests.py:5-12 | averaging 0, 1, ..., 9 over a window of 3 gives exactly [1, 2, ..., 8] with window 3 |
| Plot.PySlice | repo_stats/plot.py:58 | a Python slice has length stop - start of the normalised bounds (0 when start is not below stop), and entry k is the element at the normalised start plus k |
| Plot.PlotWindowsAgree | repo_stats/plot.py:50-52 | the second call, given the window returned by the first, keeps that window, so both series share one cut_idx |
| Plot.AsWrittenAlignsFromWindowThree | repo_stats/plot.py:52-58 | for effective windows of 3 or more, months[cut_idx:-cut_idx] has as many entries as the averages |
| Plot.AsWrittenMisalignsForUnitWindow | repo_stats/plot.py:52-58 | for a window of 1 or 2, months[cut_idx:-cut_idx] is empty while the averages keep every month |
| Plot.AsWrittenMisalignmentExample | repo_stats/plot.py:52-58 | three months with window 1: three averages, an empty month slice |
| Plot.AveragedMonthsOversizedWindow | repo_stats/plot.py:50-58 | for a window longer than the series there are w - n + 1 averages, more than one, yet both the written and the intended month slices are empty |
| Plot.AveragedMonthsCentred | repo_stats/plot.py:52-58 | for an odd window 1 <= w <= n, the intended slice has n - w + 1 months and entry k is month k + w // 2, the middle of window k |
| Plot.AveragedMonthsAligned | repo_stats/plot.py:50-58 | with the intended slice, months and averages have equal length for every window that fits, and average k is drawn at the middle month of its window |

## Findings

| source | as written | input that shows it | evidently intended | confidence | as-written member | corrected member |
|---|---|---|---|---|---|---|
| repo_stats/plot.py:52-58 | `months[cut_idx:-cut_idx]` with `cut_idx = window_avg // 2` | `window_avg` of 1 or 2: `cut_idx` is 0, `months[0:-0]` is empty, but the averages have `len(months)` entries | `months[cut_idx:len(months) - cut_idx]` | not executed; the length mismatch follows from Python slicing | Plot.AsWrittenMisalignsForUnitWindow | Plot.AveragedMonthsAligned |

The intended slice lines up only for windows that fit the series. For a
longer window (3 months with the default window of 7, say), numpy returns
`w - n + 1` averages while both slices are empty
(`Plot.AveragedMonthsOversizedWindow`). No evident intended behaviour exists
for that case, so it is recorded here and not as a row.

## Left out

- The warning printed for an even window (repo_stats/utilities.py:25): an output side effect with no effect on the result.
- Floating-point rounding in numpy: the model uses exact reals, so the means are exact.
- numpy's error messages: the two ways numpy refuses a call are kept as two error values. The wording of the messages is not modelled.
- Drawing, labelling and saving the figure (repo_stats/plot.py), including the wall-clock date string at module load. The model keeps only the month slice that is paired with the averages.
- Dropping the current month before averaging (repo_stats/plot.py:43-48): plain truncation. The model assumes its result, months and series of equal length.
- repo_stats/runner.py: argument parsing, parameter files and orchestration, all I/O.
- repo_stats/user_stats.py: image and font handling, all presentation.
- repo_stats/git_metrics.py and repo_stats/citation_metrics.py: only constructors that store tokens and paths appear. Fetching, caching, month filling and identity merging are network or file I/O, or their code is not part of this model (`fill_missed_months` and `update_cache` are imported but not shown).
