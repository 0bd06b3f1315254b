/** The one piece of arithmetic that `author_time_plot` in repo_stats/plot.py
    performs on the result of `rolling_average`: it draws each averaged series
    against the months that remain after trimming `window // 2` months from
    each end, so the two must have the same length and each average must land
    on the middle month of its window. Drawing the figure is not modelled. */
module Plot {
  import opened Convolve
  import opened Utilities

  /** Python's reading of a slice bound `i` (step 1) against a sequence of
      length `n`: negative bounds count from the end, and both kinds are
      clamped to `[0, n]`. */
  function SliceBound(i: int, n: nat): (b: nat)
    ensures b <= n
    ensures 0 <= i <= n ==> b == i
    ensures i < 0 <= i + n ==> b == i + n
    ensures i > n ==> b == n
    ensures i + n < 0 ==> b == 0
  {
    if i < 0 then (if i + n < 0 then 0 else i + n)
    else if i > n then n
    else i
  }

  /** Python's `s[start:stop]`. */
  function PySlice<T>(s: seq<T>, start: int, stop: int): (r: seq<T>)
    ensures |r| == if SliceBound(start, |s|) < SliceBound(stop, |s|)
      then SliceBound(stop, |s|) - SliceBound(start, |s|) else 0
    ensures SliceBound(start, |s|) + |r| <= |s|
    ensures forall k :: 0 <= k < |r| ==> r[k] == s[SliceBound(start, |s|) + k]
  {
    var lo := SliceBound(start, |s|);
    var hi := SliceBound(stop, |s|);
    if lo < hi then s[lo..hi] else []
  }

  /** `cut_idx = window_avg // 2` (floor division). */
  function CutIndex(window: int): int
  {
    window / 2
  }

  /** The months drawn against an averaged series, as written:
      `months[cut_idx:-cut_idx]`. */
  function AveragedMonthsAsWritten<T>(months: seq<T>, window: int): seq<T>
  {
    PySlice(months, CutIndex(window), -CutIndex(window))
  }

  /** The months drawn against an averaged series, as intended:
      `months[cut_idx:len(months) - cut_idx]`. */
  function AveragedMonths<T>(months: seq<T>, window: int): seq<T>
  {
    PySlice(months, CutIndex(window), |months| - CutIndex(window))
  }

  /** The second call of the plot passes back the window returned by the
      first; both series are therefore averaged over the same window and
      trimmed by the same `cut_idx`. */
  lemma PlotWindowsAgree(authors: seq<real>, multiAuthors: seq<real>, window: int)
    requires authors != [] && multiAuthors != [] && window >= 1
    ensures RollingAverage(authors, window).Ok?
    ensures var w := RollingAverage(authors, window).value.1;
      && RollingAverage(multiAuthors, w).Ok?
      && RollingAverage(multiAuthors, w).value.1 == w
  {
  }

  /** For windows of three or more, the slice as written has exactly as many
      months as the averaged series has entries. */
  lemma AsWrittenAlignsFromWindowThree<T>(months: seq<T>, authors: seq<real>, window: int)
    requires |months| == |authors|
    requires 3 <= EffectiveWindow(window) <= |authors|
    ensures RollingAverage(authors, window).Ok?
    ensures var (avg, w) := RollingAverage(authors, window).value;
      |AveragedMonthsAsWritten(months, w)| == |avg|
  {
  }

  /** For a window of 1, or of 2 coerced to 1, `cut_idx` is 0 and
      `months[0:-0]` is empty, while the averaged series keeps every month:
      the two series handed to the plot differ in length. */
  lemma AsWrittenMisalignsForUnitWindow<T>(months: seq<T>, authors: seq<real>, window: int)
    requires |months| == |authors| && authors != []
    requires window == 1 || window == 2
    ensures RollingAverage(authors, window).Ok?
    ensures var (avg, w) := RollingAverage(authors, window).value;
      && AveragedMonthsAsWritten(months, w) == []
      && |avg| == |months| > 0
  {
  }

  /** A concrete instance: three months averaged over a window of one. */
  lemma AsWrittenMisalignmentExample()
    ensures RollingAverage([4.0, 5.0, 6.0], 1) == Ok(([4.0, 5.0, 6.0], 1))
    ensures AveragedMonthsAsWritten(["2024-01", "2024-02", "2024-03"], 1) == []
  {
    RollingAverageUnitWindow([4.0, 5.0, 6.0], 1);
  }

  /** For a window longer than the series, numpy still returns `w - n + 1`
      averages, but both the written and the intended month slices are
      empty: no slicing of `months` pairs with that result. */
  lemma AveragedMonthsOversizedWindow<T>(months: seq<T>, authors: seq<real>, window: int)
    requires |months| == |authors| && authors != []
    requires |authors| < EffectiveWindow(window)
    ensures RollingAverage(authors, window).Ok?
    ensures var (avg, w) := RollingAverage(authors, window).value;
      && |avg| == w - |months| + 1 > 1
      && AveragedMonthsAsWritten(months, w) == []
      && AveragedMonths(months, w) == []
  {
    RollingAverageOversized(authors, window);
  }

  /** The intended slice keeps the `n - w + 1` months that are the middle
      of some complete window of `w` months, in order. */
  lemma AveragedMonthsCentred<T>(months: seq<T>, w: int)
    requires 1 <= w <= |months| && w % 2 == 1
    ensures |AveragedMonths(months, w)| == |months| - w + 1
    ensures forall k :: 0 <= k < |months| - w + 1 ==> AveragedMonths(months, w)[k] == months[k + w / 2]
  {
  }

  /** With the intended slice, every window that fits the series gives as
      many months as averages, and average `k` is drawn at the middle month
      of the window it was taken over, `w // 2` months from either end. */
  lemma AveragedMonthsAligned<T>(months: seq<T>, authors: seq<real>, window: int)
    requires |months| == |authors|
    requires 1 <= EffectiveWindow(window) <= |authors|
    ensures RollingAverage(authors, window).Ok?
    ensures var (avg, w) := RollingAverage(authors, window).value;
      |AveragedMonths(months, w)| == |avg|
    ensures var w := RollingAverage(authors, window).value.1;
      w / 2 == (w - 1) - w / 2
    ensures var (avg, w) := RollingAverage(authors, window).value;
      forall k :: 0 <= k < |avg| ==>
        && AveragedMonths(months, w)[k] == months[k + w / 2]
        && avg[k] == Mean(authors[k..k + w])
  {
    RollingAverageValid(authors, window);
    AveragedMonthsCentred(months, EffectiveWindow(window));
  }
}
