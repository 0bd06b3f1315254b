/** numpy's `convolve` in "valid" mode, over exact reals: the one numerical
    primitive that `rolling_average` in repo_stats/utilities.py relies on.

    numpy convolves two one-dimensional arrays by first swapping them so that
    the longer one comes first, refusing an empty operand, and then
    correlating the longer array with the reversed shorter one at every offset
    where the two overlap completely. */
module Convolve {

  /** Why numpy refuses a call. */
  datatype ConvolveError =
    | NegativeDimension   // `np.ones(n)` with `n < 0`
    | EmptyOperand        // `np.convolve` given an empty array

  datatype Result<T> = Ok(value: T) | Err(error: ConvolveError)

  /** The sum of a sequence, peeling off its last element. */
  function Sum(s: seq<real>): real
  {
    if |s| == 0 then 0.0 else Sum(s[..|s| - 1]) + s[|s| - 1]
  }

  /** The dot product of two sequences of equal length. */
  function Dot(x: seq<real>, y: seq<real>): real
    requires |x| == |y|
  {
    if |x| == 0 then 0.0 else Dot(x[..|x| - 1], y[..|y| - 1]) + x[|x| - 1] * y[|y| - 1]
  }

  /** `np.ones(n)` for `n >= 0`. */
  function Ones(n: nat): (r: seq<real>)
    ensures |r| == n && forall i :: 0 <= i < n ==> r[i] == 1.0
  {
    seq(n, _ => 1.0)
  }

  /** `v[::-1]` */
  function Reverse(v: seq<real>): (r: seq<real>)
    ensures |r| == |v|
    ensures forall i :: 0 <= i < |v| ==> r[i] == v[|v| - 1 - i]
  {
    seq(|v|, i requires 0 <= i < |v| => v[|v| - 1 - i])
  }

  /** numpy's `correlate(a, k, "valid")`: at each offset `i` where `k` lies
      entirely inside `a`, the dot product of `k` with the part of `a` it covers. */
  function CorrelateValid(a: seq<real>, k: seq<real>): (r: seq<real>)
    requires 1 <= |k| <= |a|
    ensures |r| == |a| - |k| + 1
  {
    seq(|a| - |k| + 1, i requires 0 <= i < |a| - |k| + 1 => Dot(a[i..i + |k|], k))
  }

  /** `np.convolve(a, v, mode="valid")`. */
  function ConvolveValid(a: seq<real>, v: seq<real>): (r: Result<seq<real>>)
    ensures r.Ok? <==> a != [] && v != []
    ensures r.Err? ==> r.error == EmptyOperand
    ensures r.Ok? && |v| <= |a| ==> |r.value| == |a| - |v| + 1
    ensures r.Ok? && |a| < |v| ==> |r.value| == |v| - |a| + 1
  {
    var long := if |v| > |a| then v else a;
    var short := if |v| > |a| then a else v;
    if |long| == 0 || |short| == 0 then Err(EmptyOperand)
    else Ok(CorrelateValid(long, Reverse(short)))
  }

  /** Peeling the first element instead of the last gives the same sum. */
  lemma {:induction false} SumFront(s: seq<real>)
    requires |s| > 0
    ensures Sum(s) == s[0] + Sum(s[1..])
  {
    if |s| > 1 {
      var init := s[..|s| - 1];
      SumFront(init);
      assert init[1..] == s[1..][..|s[1..]| - 1];
    }
  }

  /** Moving a window one step right drops its first element and gains the
      one after its end. */
  lemma SumSlide(a: seq<real>, i: nat, w: nat)
    requires i + w < |a|
    ensures Sum(a[i + 1..i + 1 + w]) == Sum(a[i..i + w]) - a[i] + a[i + w]
  {
    var s := a[i..i + w + 1];
    assert s[..|s| - 1] == a[i..i + w];
    SumFront(s);
    assert s[1..] == a[i + 1..i + 1 + w];
  }

  /** The sum of one element is that element. */
  lemma SumSingleton(s: seq<real>)
    requires |s| == 1
    ensures Sum(s) == s[0]
  {
  }

  /** The sum of three values. */
  lemma SumOfThree(s: seq<real>)
    requires |s| == 3
    ensures Sum(s) == s[0] + s[1] + s[2]
  {
    assert s[..2][..1] == [s[0]];
    SumSingleton(s[..2][..1]);
  }

  /** A sum of `|s|` values in `[lo, hi]` lies in `[|s| * lo, |s| * hi]`. */
  lemma {:induction false} SumBounds(s: seq<real>, lo: real, hi: real)
    requires forall k :: 0 <= k < |s| ==> lo <= s[k] <= hi
    ensures (|s| as real) * lo <= Sum(s) <= (|s| as real) * hi
  {
    if |s| > 0 {
      SumBounds(s[..|s| - 1], lo, hi);
    }
  }

  /** Reversing twice gives back the original sequence. */
  lemma ReverseInvolution(v: seq<real>)
    ensures Reverse(Reverse(v)) == v
  {
    assert forall i :: 0 <= i < |v| ==> Reverse(Reverse(v))[i] == v[i];
  }

  /** The dot product with a kernel of ones is the plain sum. */
  lemma {:induction false} DotOnes(x: seq<real>)
    ensures Dot(x, Ones(|x|)) == Sum(x)
  {
    if |x| > 0 {
      DotOnes(x[..|x| - 1]);
      assert Ones(|x|)[..|x| - 1] == Ones(|x| - 1);
    }
  }

  /** The dot product is symmetric. */
  lemma {:induction false} DotSymmetric(x: seq<real>, y: seq<real>)
    requires |x| == |y|
    ensures Dot(x, y) == Dot(y, x)
  {
    if |x| > 0 {
      DotSymmetric(x[..|x| - 1], y[..|y| - 1]);
    }
  }

  /** Reversal does not change a sum. */
  lemma {:induction false} SumReverse(s: seq<real>)
    ensures Sum(Reverse(s)) == Sum(s)
  {
    if |s| > 0 {
      var r := Reverse(s);
      SumReverse(s[1..]);
      assert r[..|r| - 1] == Reverse(s[1..]);
      SumFront(s);
    }
  }

  /** With a kernel of `w` ones no longer than the input, "valid" convolution
      yields one entry per complete window of `w` consecutive inputs, and that
      entry is the window's sum. */
  lemma ConvolveOnesWindowSums(a: seq<real>, w: nat)
    requires 1 <= w <= |a|
    ensures ConvolveValid(a, Ones(w)).Ok?
    ensures |ConvolveValid(a, Ones(w)).value| == |a| - w + 1
    ensures forall i :: 0 <= i < |a| - w + 1 ==> ConvolveValid(a, Ones(w)).value[i] == Sum(a[i..i + w])
  {
    assert Reverse(Ones(w)) == Ones(w);
    forall i | 0 <= i < |a| - w + 1
      ensures ConvolveValid(a, Ones(w)).value[i] == Sum(a[i..i + w])
    {
      DotOnes(a[i..i + w]);
    }
  }

  /** With a kernel longer than the input, numpy swaps the operands: every
      one of the `w - |a| + 1` entries covers the whole input and is its sum. */
  lemma ConvolveOnesOversized(a: seq<real>, w: nat)
    requires 1 <= |a| < w
    ensures ConvolveValid(a, Ones(w)).Ok?
    ensures |ConvolveValid(a, Ones(w)).value| == w - |a| + 1
    ensures forall i :: 0 <= i < w - |a| + 1 ==> ConvolveValid(a, Ones(w)).value[i] == Sum(a)
  {
    forall i | 0 <= i < w - |a| + 1
      ensures ConvolveValid(a, Ones(w)).value[i] == Sum(a)
    {
      var ra := Reverse(a);
      assert Ones(w)[i..i + |a|] == Ones(|ra|);
      DotSymmetric(Ones(|ra|), ra);
      DotOnes(ra);
      SumReverse(a);
    }
  }
}
