/** Exact arithmetic shared by the forecasting services: optional values,
    the rounding operations Python applies to floats (np.ceil, int()), and
    sums and means over sequences of reals. */
module Numbers {

  /** A value that may be absent (Python's None). */
  datatype Option<T> = None | Some(value: T) {
    function GetOr(default: T): T {
      match this
      case Some(v) => v
      case None => default
    }
  }

  function MaxR(a: real, b: real): real { if a >= b then a else b }
  function MinR(a: real, b: real): real { if a <= b then a else b }
  function MaxI(a: int, b: int): int { if a >= b then a else b }
  function MinI(a: int, b: int): int { if a <= b then a else b }

  /** int(np.ceil(x)): the least integer not below x. */
  function Ceil(x: real): (r: int)
    ensures x <= r as real < x + 1.0
  {
    -((-x).Floor)
  }

  /** Python's int() applied to a float: rounds toward zero. */
  function Trunc(x: real): (r: int)
    ensures 0.0 <= x ==> 0 <= r && r as real <= x < r as real + 1.0
    ensures x < 0.0 ==> r <= 0 && x <= r as real < x + 1.0
  {
    if x >= 0.0 then x.Floor else -((-x).Floor)
  }

  /** Sum of a sequence, peeled from the back so that appending one element
      adds exactly that element. */
  function Sum(s: seq<real>): real
    decreases |s|
  {
    if |s| == 0 then 0.0 else Sum(s[..|s| - 1]) + s[|s| - 1]
  }

  function SumInt(s: seq<int>): int
    decreases |s|
  {
    if |s| == 0 then 0 else SumInt(s[..|s| - 1]) + s[|s| - 1]
  }

  /** np.mean of a non-empty sequence. */
  function Mean(s: seq<real>): real
    requires |s| > 0
  {
    Sum(s) / |s| as real
  }

  /** Python's [x] * n. */
  function Constant(x: real, n: nat): (r: seq<real>)
    ensures |r| == n
    ensures forall i :: 0 <= i < n ==> r[i] == x
  {
    seq(n, _ => x)
  }

  lemma {:induction false} SumAppend(a: seq<real>, b: seq<real>)
    ensures Sum(a + b) == Sum(a) + Sum(b)
    decreases |b|
  {
    if |b| == 0 {
      assert a + b == a;
    } else {
      var b' := b[..|b| - 1];
      assert (a + b)[..|a + b| - 1] == a + b';
      SumAppend(a, b');
    }
  }

  lemma {:induction false} SumConstant(x: real, n: nat)
    ensures Sum(Constant(x, n)) == n as real * x
  {
    if n > 0 {
      assert Constant(x, n)[..n - 1] == Constant(x, n - 1);
      SumConstant(x, n - 1);
    }
  }

  /** The mean of a constant list is that constant. */
  lemma MeanConstant(x: real, n: nat)
    requires n > 0
    ensures Mean(Constant(x, n)) == x
  {
    SumConstant(x, n);
  }

  /** Every element at least lo bounds the sum from below. */
  lemma {:induction false} SumLowerBound(s: seq<real>, lo: real)
    requires forall i :: 0 <= i < |s| ==> lo <= s[i]
    ensures |s| as real * lo <= Sum(s)
    decreases |s|
  {
    if |s| > 0 {
      SumLowerBound(s[..|s| - 1], lo);
    }
  }

  /** Every element at most hi bounds the sum from above. */
  lemma {:induction false} SumUpperBound(s: seq<real>, hi: real)
    requires forall i :: 0 <= i < |s| ==> s[i] <= hi
    ensures Sum(s) <= |s| as real * hi
    decreases |s|
  {
    if |s| > 0 {
      SumUpperBound(s[..|s| - 1], hi);
    }
  }

  /** The position of a smallest among the first n elements. */
  function ArgMin(s: seq<real>, n: nat): (r: nat)
    requires 0 < n <= |s|
    ensures r < n && forall j :: 0 <= j < n ==> s[r] <= s[j]
  {
    if n == 1 then 0
    else
      var k := ArgMin(s, n - 1);
      if s[k] <= s[n - 1] then k else n - 1
  }

  /** The position of a largest among the first n elements. */
  function ArgMax(s: seq<real>, n: nat): (r: nat)
    requires 0 < n <= |s|
    ensures r < n && forall j :: 0 <= j < n ==> s[j] <= s[r]
  {
    if n == 1 then 0
    else
      var k := ArgMax(s, n - 1);
      if s[n - 1] <= s[k] then k else n - 1
  }

  /** The mean lies between the smallest and the largest element. */
  lemma MeanBetweenExtremes(s: seq<real>)
    requires |s| > 0
    ensures s[ArgMin(s, |s|)] <= Mean(s) <= s[ArgMax(s, |s|)]
  {
    MeanLowerBound(s, s[ArgMin(s, |s|)]);
    MeanUpperBound(s, s[ArgMax(s, |s|)]);
  }

  /** Every element at least lo bounds the mean from below. */
  lemma MeanLowerBound(s: seq<real>, lo: real)
    requires |s| > 0 && forall i :: 0 <= i < |s| ==> lo <= s[i]
    ensures lo <= Mean(s)
  {
    SumLowerBound(s, lo);
    DivideLower(|s| as real, lo, Sum(s));
  }

  /** Every element at most hi bounds the mean from above. */
  lemma MeanUpperBound(s: seq<real>, hi: real)
    requires |s| > 0 && forall i :: 0 <= i < |s| ==> s[i] <= hi
    ensures Mean(s) <= hi
  {
    SumUpperBound(s, hi);
    DivideUpper(|s| as real, Sum(s), hi);
  }

  lemma DivideLower(n: real, lo: real, total: real)
    requires n > 0.0 && n * lo <= total
    ensures lo <= total / n
  {
    assert total / n * n == total;
  }

  lemma DivideUpper(n: real, total: real, hi: real)
    requires n > 0.0 && total <= n * hi
    ensures total / n <= hi
  {
    assert total / n * n == total;
  }

  /** A sum of non-negative terms is non-negative. */
  lemma SumNonNegative(s: seq<real>)
    requires forall i :: 0 <= i < |s| ==> 0.0 <= s[i]
    ensures 0.0 <= Sum(s)
  {
    SumLowerBound(s, 0.0);
  }

  /** The sum of a pointwise sum is the sum of the sums. */
  lemma {:induction false} SumPointwise(a: seq<real>, b: seq<real>, c: seq<real>)
    requires |a| == |b| == |c|
    requires forall i :: 0 <= i < |c| ==> c[i] == a[i] + b[i]
    ensures Sum(c) == Sum(a) + Sum(b)
    decreases |c|
  {
    if |c| > 0 {
      var n := |c| - 1;
      SumPointwise(a[..n], b[..n], c[..n]);
    }
  }

  /** Sums of pointwise-equal sequences agree. */
  lemma SumExtensional(a: seq<real>, b: seq<real>)
    requires |a| == |b|
    requires forall i :: 0 <= i < |a| ==> a[i] == b[i]
    ensures Sum(a) == Sum(b)
  {
    assert a == b;
  }
}
