/** Daily bars of one ticker, the errors the dashboard can raise while reading
    them, and the sums and means the indicators are built from. Prices and
    volumes are exact reals: the source's floating point and its rounding to
    two decimals are not modelled. */
module Series {

  datatype Option<T> = None | Some(value: T)

  /** The exceptions the dashboard raises on the paths modelled here. */
  datatype Error =
    | IndexOutOfRange  // IndexError: a position counted from the end reaches before the first bar
    | NotConvertible   // TypeError: float() of the empty tail of an empty column
    | ZeroDivision     // ZeroDivisionError: a percentage change against a zero volume
    | UndefinedBands   // fewer closes than the Bollinger window (pandas yields NaN bands)

  datatype Result<T> = Success(value: T) | Failure(error: Error) {
    predicate IsFailure() { Failure? }
    function PropagateFailure<U>(): Result<U> requires Failure? { Failure(error) }
    function Extract(): T requires Success? { value }
  }

  /** One trading day; only the two columns the dashboard reads are kept. */
  datatype Bar = Bar(close: real, volume: real)

  function Closes(bars: seq<Bar>): seq<real>
  {
    seq(|bars|, i requires 0 <= i < |bars| => bars[i].close)
  }

  function Volumes(bars: seq<Bar>): seq<real>
  {
    seq(|bars|, i requires 0 <= i < |bars| => bars[i].volume)
  }

  /** Python's `xs.iloc[-k]`: the k-th value counted from the end. */
  function FromEnd(xs: seq<real>, k: nat): Result<real>
    requires k >= 1
  {
    if k <= |xs| then Success(xs[|xs| - k]) else Failure(IndexOutOfRange)
  }

  function Sum(xs: seq<real>): real
  {
    if |xs| == 0 then 0.0 else xs[0] + Sum(xs[1..])
  }

  function Mean(xs: seq<real>): real
    requires |xs| > 0
  {
    Sum(xs) / |xs| as real
  }

  function SquaredDeviations(xs: seq<real>, m: real): real
  {
    if |xs| == 0 then 0.0 else (xs[0] - m) * (xs[0] - m) + SquaredDeviations(xs[1..], m)
  }

  /** The sample variance (divisor n - 1), the convention of pandas' rolling std. */
  function SampleVariance(xs: seq<real>): real
    requires |xs| >= 2
  {
    SquaredDeviations(xs, Mean(xs)) / (|xs| - 1) as real
  }

  function Abs(x: real): real
  {
    if x < 0.0 then -x else x
  }

  // Real-arithmetic steps the solver does not find on its own.

  lemma Cancel(a: real, b: real)
    requires b != 0.0
    ensures a * b / b == a
  {
  }

  lemma MulNonNegative(a: real, b: real)
    requires a >= 0.0 && b >= 0.0
    ensures a * b >= 0.0
  {
  }

  lemma MulStrict(a: real, b: real, s: real)
    requires a > b && s > 0.0
    ensures a * s > b * s
  {
    assert (a - b) * s == a * s - b * s;
  }

  /** The only non-negative square root of zero is zero. */
  lemma SquareZero(x: real)
    ensures x * x == 0.0 ==> x == 0.0
  {
    if x != 0.0 {
      Cancel(x, x);
    }
  }

  /** A convex combination of two values stays between their bounds. */
  lemma ConvexStep(a: real, x: real, y: real, lo: real, hi: real)
    requires 0.0 <= a <= 1.0
    requires lo <= x <= hi && lo <= y <= hi
    ensures lo <= a * x + (1.0 - a) * y <= hi
  {
    MulNonNegative(a, x - lo);
    MulNonNegative(a, hi - x);
    MulNonNegative(1.0 - a, y - lo);
    MulNonNegative(1.0 - a, hi - y);
  }

  /** Comparing a quotient by a positive divisor is comparing the dividend with the scaled bound. */
  lemma DivCompare(x: real, s: real, c: real)
    requires s > 0.0
    ensures x / s > c <==> x > c * s
    ensures x / s < c <==> x < c * s
  {
    var q := x / s;
    assert q * s == x;
    if q > c {
      MulStrict(q, c, s);
    } else if q < c {
      MulStrict(c, q, s);
    }
  }

  /** The share `100 * part / (part + rest)` of a non-negative part lies in [0, 100],
      exceeds 50 exactly when the part outweighs the rest, and is 100 when there is no rest. */
  lemma Share(part: real, rest: real)
    requires part >= 0.0 && rest >= 0.0 && part + rest > 0.0
    ensures 0.0 <= 100.0 * part / (part + rest) <= 100.0
    ensures 100.0 * part / (part + rest) > 50.0 <==> part > rest
    ensures rest == 0.0 ==> 100.0 * part / (part + rest) == 100.0
  {
    var s := part + rest;
    DivCompare(100.0 * part, s, 50.0);
    DivCompare(100.0 * part, s, 100.0);
    DivCompare(100.0 * part, s, 0.0);
  }

  lemma {:induction false} SumConstant(xs: seq<real>, c: real)
    requires forall i :: 0 <= i < |xs| ==> xs[i] == c
    ensures Sum(xs) == |xs| as real * c
  {
    if |xs| > 0 {
      SumConstant(xs[1..], c);
    }
  }

  /** A sum of non-negative terms is non-negative, and zero exactly when every term is. */
  lemma {:induction false} SumOfNonNegatives(xs: seq<real>)
    requires forall i :: 0 <= i < |xs| ==> xs[i] >= 0.0
    ensures Sum(xs) >= 0.0
    ensures Sum(xs) == 0.0 <==> forall i :: 0 <= i < |xs| ==> xs[i] == 0.0
  {
    if |xs| > 0 {
      SumOfNonNegatives(xs[1..]);
      if Sum(xs) == 0.0 {
        forall i | 0 <= i < |xs| ensures xs[i] == 0.0 {
          if i > 0 { assert xs[i] == xs[1..][i - 1]; }
        }
      }
    }
  }

  /** A sum of non-positive terms is non-positive, and zero exactly when every term is. */
  lemma {:induction false} SumOfNonPositives(xs: seq<real>)
    requires forall i :: 0 <= i < |xs| ==> xs[i] <= 0.0
    ensures Sum(xs) <= 0.0
    ensures Sum(xs) == 0.0 <==> forall i :: 0 <= i < |xs| ==> xs[i] == 0.0
  {
    if |xs| > 0 {
      SumOfNonPositives(xs[1..]);
      if Sum(xs) == 0.0 {
        forall i | 0 <= i < |xs| ensures xs[i] == 0.0 {
          if i > 0 { assert xs[i] == xs[1..][i - 1]; }
        }
      }
    }
  }

  lemma {:induction false} SquaredDeviationsConstant(xs: seq<real>, c: real, m: real)
    requires forall i :: 0 <= i < |xs| ==> xs[i] == c
    ensures SquaredDeviations(xs, m) == |xs| as real * ((c - m) * (c - m))
  {
    if |xs| > 0 {
      SquaredDeviationsConstant(xs[1..], c, m);
    }
  }

  /** A window of equal values has that value as its mean and no spread. */
  lemma ConstantWindow(xs: seq<real>, c: real)
    requires |xs| >= 2
    requires forall i :: 0 <= i < |xs| ==> xs[i] == c
    ensures Mean(xs) == c
    ensures SampleVariance(xs) == 0.0
  {
    SumConstant(xs, c);
    SquaredDeviationsConstant(xs, c, c);
  }
}
