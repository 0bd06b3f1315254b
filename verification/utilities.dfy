/** `rolling_average` from repo_stats/utilities.py: a centred moving mean of a
    monthly series, over exact reals. The window is first forced to be odd by
    decreasing an even one by one; the series is then convolved with a kernel
    of that many ones in "valid" mode and every entry divided by the window. */
module Utilities {
  import opened Convolve

  /** The window actually used: an even request is decreased by exactly one. */
  function EffectiveWindow(window: int): (w: int)
    ensures w % 2 == 1
    ensures w == window || w == window - 1
    ensures w == window <==> window % 2 == 1
  {
    if window % 2 == 0 then window - 1 else window
  }

  /** The arithmetic mean of a non-empty sequence. */
  function Mean(s: seq<real>): real
    requires |s| > 0
  {
    Sum(s) / (|s| as real)
  }

  /** numpy's element-wise `array / w`. */
  function DivideAll(s: seq<real>, w: int): (r: seq<real>)
    requires w != 0
    ensures |r| == |s|
    ensures forall i :: 0 <= i < |s| ==> r[i] == s[i] / (w as real)
  {
    seq(|s|, i requires 0 <= i < |s| => s[i] / (w as real))
  }

  /** `rolling_average(unaveraged, window)`: the averaged series together
      with the window it used, or the error numpy raises. */
  function RollingAverage(unaveraged: seq<real>, window: int): (r: Result<(seq<real>, int)>)
    ensures r.Ok? <==> unaveraged != [] && window >= 1
    ensures r.Err? ==> (r.error == NegativeDimension <==> window < 1)
    ensures r.Ok? ==> r.value.1 == EffectiveWindow(window)
  {
    var w := EffectiveWindow(window);
    if w < 0 then Err(NegativeDimension)
    else
      match ConvolveValid(unaveraged, Ones(w))
      case Err(e) => Err(e)
      case Ok(sums) => Ok((DivideAll(sums, w), w))
  }

  /** A coerced window is already odd, so passing it back in (as the
      commit-authors plot does for its second series) leaves it unchanged. */
  lemma EffectiveWindowIdempotent(window: int)
    ensures EffectiveWindow(EffectiveWindow(window)) == EffectiveWindow(window)
  {
  }

  /** For a window that fits the series, the result has one entry per
      complete window of consecutive inputs, and entry `i` is the mean of the
      inputs `i` up to `i + w - 1`. */
  lemma RollingAverageValid(unaveraged: seq<real>, window: int)
    requires 1 <= EffectiveWindow(window) <= |unaveraged|
    ensures var r := RollingAverage(unaveraged, window);
      && r.Ok?
      && var (avg, w) := r.value;
      && w == EffectiveWindow(window)
      && |avg| == |unaveraged| - w + 1
      && forall i :: 0 <= i < |avg| ==> avg[i] == Mean(unaveraged[i..i + w])
  {
    ConvolveOnesWindowSums(unaveraged, EffectiveWindow(window));
  }

  /** For a window longer than the series, numpy swaps the operands: the
      result has `w - n + 1` entries, each the whole series' sum divided by `w`. */
  lemma RollingAverageOversized(unaveraged: seq<real>, window: int)
    requires 1 <= |unaveraged| < EffectiveWindow(window)
    ensures var r := RollingAverage(unaveraged, window);
      && r.Ok?
      && var (avg, w) := r.value;
      && |avg| == w - |unaveraged| + 1
      && forall i :: 0 <= i < |avg| ==> avg[i] == Sum(unaveraged) / (w as real)
  {
    ConvolveOnesOversized(unaveraged, EffectiveWindow(window));
  }

  /** The averaged series is shorter than the input by `w // 2` entries at
      each end, which is what centring the windows on the input requires. */
  lemma RollingAverageCentredLength(unaveraged: seq<real>, window: int)
    requires 1 <= EffectiveWindow(window) <= |unaveraged|
    ensures var r := RollingAverage(unaveraged, window);
      && r.Ok?
      && |r.value.0| == |unaveraged| - 2 * (r.value.1 / 2)
  {
  }

  /** A window of 1, or of 2 coerced to 1, leaves the series as it was. */
  lemma RollingAverageUnitWindow(unaveraged: seq<real>, window: int)
    requires unaveraged != [] && (window == 1 || window == 2)
    ensures RollingAverage(unaveraged, window) == Ok((unaveraged, 1))
  {
    RollingAverageValid(unaveraged, window);
    var avg := RollingAverage(unaveraged, window).value.0;
    forall i | 0 <= i < |unaveraged|
      ensures avg[i] == unaveraged[i]
    {
      SumSingleton(unaveraged[i..i + 1]);
    }
    assert avg == unaveraged;
  }

  /** Averaging never leaves the range of the input: every entry lies
      between the least and the greatest bound of the series. */
  lemma RollingAverageBounds(unaveraged: seq<real>, window: int, lo: real, hi: real)
    requires 1 <= EffectiveWindow(window) <= |unaveraged|
    requires forall k :: 0 <= k < |unaveraged| ==> lo <= unaveraged[k] <= hi
    ensures var avg := RollingAverage(unaveraged, window).value.0;
      forall i :: 0 <= i < |avg| ==> lo <= avg[i] <= hi
  {
    RollingAverageValid(unaveraged, window);
    var (avg, w) := RollingAverage(unaveraged, window).value;
    forall i | 0 <= i < |avg|
      ensures lo <= avg[i] <= hi
    {
      var s := unaveraged[i..i + w];
      SumBounds(s, lo, hi);
      MeanBounds(Sum(s), w as real, lo, hi);
    }
  }

  /** Dividing a total of `n` values in `[lo, hi]` by `n` stays in range. */
  lemma MeanBounds(total: real, n: real, lo: real, hi: real)
    requires n > 0.0 && n * lo <= total <= n * hi
    ensures lo <= total / n <= hi
  {
  }

  /** A series holding one window mean per complete window is exactly what
      `RollingAverage` returns. */
  lemma RollingAverageCharacterised(unaveraged: seq<real>, window: int, avg: seq<real>)
    requires 1 <= EffectiveWindow(window) <= |unaveraged|
    requires |avg| == |unaveraged| - EffectiveWindow(window) + 1
    requires forall i :: 0 <= i < |avg| ==> avg[i] == Mean(unaveraged[i..i + EffectiveWindow(window)])
    ensures RollingAverage(unaveraged, window) == Ok((avg, EffectiveWindow(window)))
  {
    RollingAverageValid(unaveraged, window);
    assert RollingAverage(unaveraged, window).value.0 == avg;
  }

  /** The same averaging computed with one running window sum, updated in
      constant time per step rather than re-summed for every window. */
  method RollingAverageRunningSum(unaveraged: seq<real>, window: int) returns (avg: seq<real>, w: int)
    requires 1 <= EffectiveWindow(window) <= |unaveraged|
    ensures w == EffectiveWindow(window)
    ensures |avg| == |unaveraged| - w + 1
    ensures forall i :: 0 <= i < |avg| ==> avg[i] == Mean(unaveraged[i..i + w])
    ensures RollingAverage(unaveraged, window) == Ok((avg, w))
  {
    w := window;
    if w % 2 == 0 {
      w := w - 1;
    }
    var total := 0.0;
    var k := 0;
    while k < w
      invariant 0 <= k <= w
      invariant total == Sum(unaveraged[..k])
    {
      assert unaveraged[..k + 1][..k] == unaveraged[..k];
      total := total + unaveraged[k];
      k := k + 1;
    }
    assert unaveraged[0..w] == unaveraged[..w];
    avg := [total / (w as real)];
    var i := 0;
    while i + w < |unaveraged|
      invariant 0 <= i && i + w <= |unaveraged|
      invariant |avg| == i + 1
      invariant total == Sum(unaveraged[i..i + w])
      invariant forall j :: 0 <= j < |avg| ==> avg[j] == Sum(unaveraged[j..j + w]) / (w as real)
    {
      SumSlide(unaveraged, i, w);
      total := total - unaveraged[i] + unaveraged[i + w];
      avg := avg + [total / (w as real)];
      i := i + 1;
    }
    forall j | 0 <= j < |avg|
      ensures avg[j] == Mean(unaveraged[j..j + w])
    {
      assert |unaveraged[j..j + w]| == w;
    }
    RollingAverageCharacterised(unaveraged, window, avg);
  }
}
