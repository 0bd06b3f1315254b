/** The behaviour pinned by `test_rolling_average` in test/tests.py, proved
    exactly rather than within a tolerance. */
module Tests {
  import opened Convolve
  import opened Utilities

  /** `np.arange(10)` */
  function Arange(n: nat): (r: seq<real>)
    ensures |r| == n && forall i :: 0 <= i < n ==> r[i] == i as real
  {
    seq(n, i => i as real)
  }

  /** Averaging `0, 1, ..., 9` over a window of three gives `1, 2, ..., 8`. */
  lemma ArangeTenWindowThree()
    ensures RollingAverage(Arange(10), 3) == Ok(([1.0, 2.0, 3.0, 4.0, 5.0, 6.0, 7.0, 8.0], 3))
  {
    var xs := Arange(10);
    var expected := [1.0, 2.0, 3.0, 4.0, 5.0, 6.0, 7.0, 8.0];
    forall i | 0 <= i < |expected|
      ensures expected[i] == Mean(xs[i..i + 3])
    {
      SumOfThree(xs[i..i + 3]);
    }
    RollingAverageCharacterised(xs, 3, expected);
  }
}
