/** The score transforms of functions.py: element-wise maps from a sequence
    of raw scores to a sequence of desirabilities of the same length.

    Real arithmetic has no exponential, so the exponential the code calls
    (`np.exp`) and the constant `np.log(10)` are carried by an `Exponential`
    value whose `Valid()` predicate states the laws the proofs use. */
module Transforms {

  /** `exp` stands for `np.exp`, `ln10` for `np.log(10)`. */
  datatype Exponential = Exponential(exp: real -> real, ln10: real)
  {
    /** What evaluating a transform needs: no denominator `1 + exp(.)` is 0. */
    ghost predicate Positive() {
      forall h :: exp(h) > 0.0
    }

    /** The laws of the exponential the proofs about the curves use. */
    ghost predicate Valid() {
      && Positive()
      && ln10 > 0.0
      && exp(0.0) == 1.0
      && (forall a, b :: a + b == 0.0 ==> exp(a) * exp(b) == 1.0)
      && (forall a, b :: a <= b ==> exp(a) <= exp(b))
    }
  }

  /** The textbook logistic curve 1 / (1 + e^-h): the single-formula
      reference the two-branch `stable_sigmoid` is proved against. */
  ghost function Logistic(e: Exponential, h: real): real
    requires e.Positive()
  {
    1.0 / (1.0 + e.exp(-h))
  }

  // ---------------------------------------------------------------------
  // Primitives
  // ---------------------------------------------------------------------

  /** One element of `hard_sigmoid`: `(k * x > 0)` as 1.0 or 0.0. */
  function HardSigmoidAt(x: real, k: real): (r: real)
    ensures r == 1.0 <==> k * x > 0.0
    ensures r == 0.0 <==> k * x <= 0.0
  {
    if k * x > 0.0 then 1.0 else 0.0
  }

  /** `hard_sigmoid(x, k)`. */
  function HardSigmoid(x: seq<real>, k: real): (r: seq<real>)
    ensures |r| == |x|
    ensures forall i :: 0 <= i < |x| ==> r[i] == HardSigmoidAt(x[i], k)
  {
    seq(|x|, i requires 0 <= i < |x| => HardSigmoidAt(x[i], k))
  }

  /** One element of `stable_sigmoid` (base 10): `h = k * x * ln 10`, then
      `1 / (1 + exp(-h))` where `h >= 0` and `exp(h) / (1 + exp(h))` where
      `h < 0`. Either way the value lies strictly between 0 and 1. */
  function StableSigmoidAt(e: Exponential, x: real, k: real): (r: real)
    requires e.Positive()
    ensures 0.0 < r < 1.0
  {
    var h := k * x * e.ln10;
    if h >= 0.0 then
      ReciprocalBelowOne(1.0 + e.exp(-h));
      1.0 / (1.0 + e.exp(-h))
    else
      FractionBelowOne(e.exp(h));
      e.exp(h) / (1.0 + e.exp(h))
  }

  /** `stable_sigmoid(x, k)` with `base_10 = True`. */
  function StableSigmoid(e: Exponential, x: seq<real>, k: real): (r: seq<real>)
    requires e.Positive()
    ensures |r| == |x|
    ensures forall i :: 0 <= i < |x| ==> r[i] == StableSigmoidAt(e, x[i], k)
  {
    seq(|x|, i requires 0 <= i < |x| => StableSigmoidAt(e, x[i], k))
  }

  /** The two branches of `stable_sigmoid` denote the same real number:
      `1 / (1 + exp(-h)) == exp(h) / (1 + exp(h))` for every `h`. */
  lemma BranchesAgree(e: Exponential, h: real)
    requires e.Valid()
    ensures 1.0 / (1.0 + e.exp(-h)) == e.exp(h) / (1.0 + e.exp(h))
  {
    var p, q := e.exp(h), e.exp(-h);
    assert h + -h == 0.0;
    assert p > 0.0 && q > 0.0 && p * q == 1.0;
    assert p * (1.0 + q) == p + p * q == 1.0 + p;
    DivisionByCrossProduct(p, 1.0 + p, 1.0, 1.0 + q);
  }

  /** So whichever branch the sign of `h` selects, `stable_sigmoid` is the
      logistic curve of `k * x * ln 10`, and it is one half at `x == 0`. */
  lemma StableSigmoidIsLogistic(e: Exponential, x: real, k: real)
    requires e.Valid()
    ensures StableSigmoidAt(e, x, k) == Logistic(e, k * x * e.ln10)
    ensures x == 0.0 ==> StableSigmoidAt(e, x, k) == 0.5
  {
    BranchesAgree(e, k * x * e.ln10);
    if x == 0.0 {
      assert k * x * e.ln10 == 0.0;
      LogisticCentre(e);
    }
  }

  /** `StableSigmoidIsLogistic` with the exponent named by the caller. */
  lemma StableSigmoidAtIsLogistic(e: Exponential, x: real, k: real, h: real)
    requires e.Valid()
    requires h == k * x * e.ln10
    ensures StableSigmoidAt(e, x, k) == Logistic(e, h)
  {
    StableSigmoidIsLogistic(e, x, k);
  }

  lemma LogisticCentre(e: Exponential)
    requires e.Valid()
    ensures Logistic(e, 0.0) == 0.5
  {
    assert -0.0 == 0.0;
  }

  // ---------------------------------------------------------------------
  // Sigmoid and reverse sigmoid
  // ---------------------------------------------------------------------

  /** The centre `(high + low) / 2` of `sigmoid` and `reverse_sigmoid`. */
  function Centre(low: real, high: real): real {
    (high + low) / 2.0
  }

  /** One element of `sigmoid(values, k, low, high)`, in [0, 1]. With
      `high == low` nothing is divided: the result is 1 exactly when
      `10k * (x - centre) > 0`, so it is 0 at the centre itself. */
  function SigmoidAt(e: Exponential, v: real, k: real, low: real, high: real): (r: real)
    requires e.Positive()
    ensures high == low ==> (r == 1.0 <==> 10.0 * k * (v - Centre(low, high)) > 0.0)
    ensures high == low ==> (r == 0.0 <==> 10.0 * k * (v - Centre(low, high)) <= 0.0)
    ensures 0.0 <= r <= 1.0
  {
    var x := v - Centre(low, high);
    if high - low == 0.0 then HardSigmoidAt(x, 10.0 * k)
    else StableSigmoidAt(e, x, 10.0 * k / (high - low))
  }

  /** With `high != low`, `sigmoid` is the base-10 logistic curve of slope
      `10k / (high - low)` around the centre. */
  lemma SigmoidIsLogistic(e: Exponential, v: real, k: real, low: real, high: real)
    requires e.Valid()
    requires high != low
    ensures SigmoidAt(e, v, k, low, high)
         == Logistic(e, 10.0 * k / (high - low) * (v - Centre(low, high)) * e.ln10)
  {
    SigmoidAtIsStable(e, v, k, low, high);
    StableSigmoidAtIsLogistic(e, v - Centre(low, high), 10.0 * k / (high - low),
                              10.0 * k / (high - low) * (v - Centre(low, high)) * e.ln10);
  }

  /** Away from `high == low`, `sigmoid` is `stable_sigmoid` of the shifted
      score with slope `10k / (high - low)`. */
  lemma SigmoidAtIsStable(e: Exponential, v: real, k: real, low: real, high: real)
    requires e.Positive()
    requires high != low
    ensures SigmoidAt(e, v, k, low, high)
         == StableSigmoidAt(e, v - Centre(low, high), 10.0 * k / (high - low))
  {
    assert high - low != 0.0;
  }

  /** With `high != low`, `sigmoid` is exactly one half at the centre; with
      `high == low` it is 0 there (see `SigmoidAt`). */
  lemma SigmoidHalfAtCentre(e: Exponential, k: real, low: real, high: real)
    requires e.Valid()
    requires high != low
    ensures SigmoidAt(e, Centre(low, high), k, low, high) == 0.5
  {
    var slope := 10.0 * k / (high - low);
    assert SigmoidAt(e, Centre(low, high), k, low, high) == StableSigmoidAt(e, 0.0, slope);
    StableSigmoidIsLogistic(e, 0.0, slope);
  }

  /** `sigmoid(values, k, low, high)`. */
  function Sigmoid(e: Exponential, values: seq<real>, k: real, low: real, high: real): (r: seq<real>)
    requires e.Positive()
    ensures |r| == |values|
    ensures forall i :: 0 <= i < |values| ==> r[i] == SigmoidAt(e, values[i], k, low, high)
  {
    seq(|values|, i requires 0 <= i < |values| => SigmoidAt(e, values[i], k, low, high))
  }

  /** `reverse_sigmoid(values, k, low, high)`, computed as the source does:
      its own shift and branch on `high - low`, then `1.0 - transformed`.
      Each element is the complement of the matching `sigmoid` element, for
      every parameter choice including `high == low`. */
  function ReverseSigmoid(e: Exponential, values: seq<real>, k: real, low: real, high: real): (r: seq<real>)
    requires e.Positive()
    ensures |r| == |values|
    ensures forall i :: 0 <= i < |values| ==>
      r[i] == 1.0 - Sigmoid(e, values, k, low, high)[i]
    ensures forall i :: 0 <= i < |values| ==> 0.0 <= r[i] <= 1.0
  {
    var x := seq(|values|, i requires 0 <= i < |values| => values[i] - (high + low) / 2.0);
    var transformed :=
      if high - low == 0.0 then HardSigmoid(x, 10.0 * k)
      else StableSigmoid(e, x, 10.0 * k / (high - low));
    seq(|values|, i requires 0 <= i < |values| => 1.0 - transformed[i])
  }

  /** The logistic curve never decreases. */
  lemma LogisticMonotone(e: Exponential, h1: real, h2: real)
    requires e.Valid()
    requires h1 <= h2
    ensures Logistic(e, h1) <= Logistic(e, h2)
  {
    var q1, q2 := e.exp(-h1), e.exp(-h2);
    assert -h2 <= -h1;
    assert q2 <= q1;
    assert q2 > 0.0;
    ReciprocalAntitone(1.0 + q2, 1.0 + q1);
  }

  /** For a non-negative steepness and `low <= high`, `sigmoid` is
      non-decreasing in the score. */
  lemma SigmoidMonotone(e: Exponential, k: real, low: real, high: real, v1: real, v2: real)
    requires e.Valid()
    requires k >= 0.0 && low <= high && v1 <= v2
    ensures SigmoidAt(e, v1, k, low, high) <= SigmoidAt(e, v2, k, low, high)
  {
    if high == low {
      MulMonotone(10.0 * k, v1 - Centre(low, high), v2 - Centre(low, high));
    } else {
      SlopedMonotone(e, k, low, high, v1, v2);
    }
  }

  lemma SlopedMonotone(e: Exponential, k: real, low: real, high: real, v1: real, v2: real)
    requires e.Valid()
    requires k >= 0.0 && low < high && v1 <= v2
    ensures SigmoidAt(e, v1, k, low, high) <= SigmoidAt(e, v2, k, low, high)
  {
    SlopedLogisticMonotone(e, k, low, high, v1, v2);
    SigmoidIsLogistic(e, v1, k, low, high);
    SigmoidIsLogistic(e, v2, k, low, high);
  }

  lemma SlopedLogisticMonotone(e: Exponential, k: real, low: real, high: real, v1: real, v2: real)
    requires e.Valid()
    requires k >= 0.0 && low < high && v1 <= v2
    ensures Logistic(e, 10.0 * k / (high - low) * (v1 - Centre(low, high)) * e.ln10)
         <= Logistic(e, 10.0 * k / (high - low) * (v2 - Centre(low, high)) * e.ln10)
  {
    SlopeNonNegative(k, low, high);
    ProductMonotone(10.0 * k / (high - low), e.ln10, v1 - Centre(low, high), v2 - Centre(low, high));
    LogisticMonotone(e, 10.0 * k / (high - low) * (v1 - Centre(low, high)) * e.ln10,
                        10.0 * k / (high - low) * (v2 - Centre(low, high)) * e.ln10);
  }

  /** Hence `reverse_sigmoid` never increases in the score. */
  lemma ReverseSigmoidAntitone(e: Exponential, values: seq<real>, k: real, low: real, high: real,
                               i: nat, j: nat)
    requires e.Valid()
    requires k >= 0.0 && low <= high
    requires i < |values| && j < |values| && values[i] <= values[j]
    ensures ReverseSigmoid(e, values, k, low, high)[j] <= ReverseSigmoid(e, values, k, low, high)[i]
  {
    SigmoidMonotone(e, k, low, high, values[i], values[j]);
  }

  // ---------------------------------------------------------------------
  // Double sigmoid
  // ---------------------------------------------------------------------

  /** The split point `(x_right - x_left) / 2 + x_left` of `double_sigmoid`. */
  function Midpoint(xLeft: real, xRight: real): real {
    (xRight - xLeft) / 2.0 + xLeft
  }

  /** The left curve of `double_sigmoid` at a shifted score `d = x - x_left`. */
  function LeftCurve(e: Exponential, d: real, k: real, kLeft: real): real
    requires e.Positive()
  {
    if k == 0.0 then HardSigmoidAt(d, kLeft) else StableSigmoidAt(e, d, kLeft / k)
  }

  /** The right curve, before complementing, at `d = x - x_right`. */
  function RightCurve(e: Exponential, d: real, k: real, kRight: real): real
    requires e.Positive()
  {
    if k == 0.0 then HardSigmoidAt(d, kRight) else StableSigmoidAt(e, d, kRight / k)
  }

  /** The value `double_sigmoid` gives one score, stated per element: a score
      below the midpoint takes the left curve, any other score one minus the
      right curve. The result is in [0, 1], and with `k == 0` it is 0 or 1. */
  function DoubleSigmoidAt(e: Exponential, v: real, xLeft: real, xRight: real,
                           k: real, kLeft: real, kRight: real): (r: real)
    requires e.Positive()
    ensures 0.0 <= r <= 1.0
    ensures k == 0.0 ==> r == 0.0 || r == 1.0
  {
    if v < Midpoint(xLeft, xRight) then LeftCurve(e, v - xLeft, k, kLeft)
    else 1.0 - RightCurve(e, v - xRight, k, kRight)
  }

  /** With `k != 0` and `x_left <= x_right` the double sigmoid is one half
      at `x_left` and at `x_right`, as the docstring of `double_sigmoid`
      says: `x_left` lies below the midpoint (or on it, when the thresholds
      meet, where the right curve's half is taken), `x_right` at or above
      it, and each curve is centred on its own threshold. */
  lemma DoubleSigmoidHalfAtThresholds(e: Exponential, xLeft: real, xRight: real,
                                      k: real, kLeft: real, kRight: real)
    requires e.Valid()
    requires k != 0.0 && xLeft <= xRight
    ensures DoubleSigmoidAt(e, xLeft, xLeft, xRight, k, kLeft, kRight) == 0.5
    ensures DoubleSigmoidAt(e, xRight, xLeft, xRight, k, kLeft, kRight) == 0.5
  {
    if xLeft < xRight {
      assert xLeft < Midpoint(xLeft, xRight) <= xRight;
    } else {
      assert Midpoint(xLeft, xRight) == xLeft == xRight;
    }
    StableSigmoidIsLogistic(e, 0.0, kLeft / k);
    StableSigmoidIsLogistic(e, 0.0, kRight / k);
    assert xLeft - xLeft == 0.0 && xRight - xRight == 0.0;
  }

  /** The scores of `x` on one side of the midpoint `c`, in their order:
      `x[x < c]` when `left`, `x[x >= c]` otherwise. */
  function Side(x: seq<real>, c: real, left: bool): (s: seq<real>)
    ensures |s| <= |x|
    ensures forall j :: 0 <= j < |s| ==> (s[j] < c) == left
  {
    if |x| == 0 then []
    else Side(x[..|x| - 1], c, left) + (if (x[|x| - 1] < c) == left then [x[|x| - 1]] else [])
  }

  lemma {:induction false} SidePrefix(x: seq<real>, c: real, left: bool, i: nat)
    requires i <= |x|
    ensures Side(x[..i], c, left) <= Side(x, c, left)
    decreases |x|
  {
    if i < |x| {
      var y := x[..|x| - 1];
      assert x[..i] == y[..i];
      SidePrefix(y, c, left, i);
    } else {
      assert x[..i] == x;
    }
  }

  /** Extending the scanned prefix by one score extends exactly one side. */
  lemma SideStep(x: seq<real>, c: real, left: bool, i: nat)
    requires i < |x|
    ensures Side(x[..i + 1], c, left)
         == Side(x[..i], c, left) + (if (x[i] < c) == left then [x[i]] else [])
  {
    assert x[..i + 1][..i] == x[..i];
  }

  /** `sigmoid_left`: the left curve over the gathered scores `x[x < centre]`. */
  function LeftGroup(e: Exponential, below: seq<real>, xLeft: real, xRight: real,
                     k: real, kLeft: real, kRight: real): (r: seq<real>)
    requires e.Positive()
    requires forall j :: 0 <= j < |below| ==> below[j] < Midpoint(xLeft, xRight)
    ensures |r| == |below|
    ensures forall j :: 0 <= j < |below| ==>
      r[j] == DoubleSigmoidAt(e, below[j], xLeft, xRight, k, kLeft, kRight)
  {
    var xl := seq(|below|, j requires 0 <= j < |below| => below[j] - xLeft);
    if k == 0.0 then HardSigmoid(xl, kLeft) else StableSigmoid(e, xl, kLeft / k)
  }

  /** `sigmoid_right`: one minus the right curve over `x[x >= centre]`. */
  function RightGroup(e: Exponential, above: seq<real>, xLeft: real, xRight: real,
                      k: real, kLeft: real, kRight: real): (r: seq<real>)
    requires e.Positive()
    requires forall j :: 0 <= j < |above| ==> !(above[j] < Midpoint(xLeft, xRight))
    ensures |r| == |above|
    ensures forall j :: 0 <= j < |above| ==>
      r[j] == DoubleSigmoidAt(e, above[j], xLeft, xRight, k, kLeft, kRight)
  {
    var xr := seq(|above|, j requires 0 <= j < |above| => above[j] - xRight);
    var s := if k == 0.0 then HardSigmoid(xr, kRight) else StableSigmoid(e, xr, kRight / k);
    seq(|s|, j requires 0 <= j < |s| => 1.0 - s[j])
  }

  /** `double_sigmoid(x, x_left, x_right, k, k_left, k_right)` as the source
      computes it: gather the scores below the midpoint and those at or above
      it, evaluate each group with its own curve, then scatter the two result
      arrays back through the same masks. Every output position holds the
      value of the score at that position. */
  method DoubleSigmoid(e: Exponential, x: seq<real>, xLeft: real, xRight: real,
                       k: real, kLeft: real, kRight: real) returns (d: seq<real>)
    requires e.Positive()
    ensures |d| == |x|
    ensures forall i :: 0 <= i < |x| ==>
      d[i] == DoubleSigmoidAt(e, x[i], xLeft, xRight, k, kLeft, kRight)
  {
    var c := (xRight - xLeft) / 2.0 + xLeft;
    var below, above := Side(x, c, true), Side(x, c, false);
    var sigmoidLeft := LeftGroup(e, below, xLeft, xRight, k, kLeft, kRight);
    var sigmoidRight := RightGroup(e, above, xLeft, xRight, k, kLeft, kRight);
    // Scatter: the a-th score below the midpoint receives sigmoidLeft[a],
    // the b-th score at or above it receives sigmoidRight[b].
    d := [];
    var a, b := 0, 0;
    var i := 0;
    while i < |x|
      invariant 0 <= i <= |x|
      invariant |d| == i
      invariant a == |Side(x[..i], c, true)| && b == |Side(x[..i], c, false)|
      invariant forall j :: 0 <= j < i ==>
        d[j] == DoubleSigmoidAt(e, x[j], xLeft, xRight, k, kLeft, kRight)
    {
      SideStep(x, c, true, i);
      SideStep(x, c, false, i);
      if x[i] < c {
        ScatterIndex(x, c, true, i);
        d := d + [sigmoidLeft[a]];
        a := a + 1;
      } else {
        ScatterIndex(x, c, false, i);
        d := d + [sigmoidRight[b]];
        b := b + 1;
      }
      i := i + 1;
    }
  }

  /** The score at position `i` is the `n`-th score of its side, where `n`
      counts the scores of that side before `i`: scattering by a running
      counter puts every result back where its score came from. */
  lemma ScatterIndex(x: seq<real>, c: real, left: bool, i: nat)
    requires i < |x| && (x[i] < c) == left
    ensures |Side(x[..i], c, left)| < |Side(x, c, left)|
    ensures Side(x, c, left)[|Side(x[..i], c, left)|] == x[i]
  {
    SideStep(x, c, left, i);
    SidePrefix(x, c, left, i + 1);
    var n := |Side(x[..i], c, left)|;
    assert Side(x[..i + 1], c, left)[n] == x[i];
  }

  // ---------------------------------------------------------------------
  // Step family
  // ---------------------------------------------------------------------

  /** `step(values, low, high)`: 1.0 exactly on the closed interval
      `low <= x <= high`, 0.0 elsewhere. */
  function Step(values: seq<real>, low: real, high: real): (r: seq<real>)
    ensures |r| == |values|
    ensures forall i :: 0 <= i < |values| ==> (r[i] == 1.0 <==> low <= values[i] <= high)
    ensures forall i :: 0 <= i < |values| ==> (r[i] == 0.0 <==> !(low <= values[i] <= high))
  {
    seq(|values|, i requires 0 <= i < |values| => if low <= values[i] <= high then 1.0 else 0.0)
  }

  /** `left_step(values, low)`: 1.0 exactly where `x <= low`. */
  function LeftStep(values: seq<real>, low: real): (r: seq<real>)
    ensures |r| == |values|
    ensures forall i :: 0 <= i < |values| ==> (r[i] == 1.0 <==> values[i] <= low)
    ensures forall i :: 0 <= i < |values| ==> (r[i] == 0.0 <==> values[i] > low)
  {
    seq(|values|, i requires 0 <= i < |values| => if values[i] <= low then 1.0 else 0.0)
  }

  /** `right_step(values, high)`: 1.0 exactly where `x >= high`. */
  function RightStep(values: seq<real>, high: real): (r: seq<real>)
    ensures |r| == |values|
    ensures forall i :: 0 <= i < |values| ==> (r[i] == 1.0 <==> values[i] >= high)
    ensures forall i :: 0 <= i < |values| ==> (r[i] == 0.0 <==> values[i] < high)
  {
    seq(|values|, i requires 0 <= i < |values| => if values[i] >= high then 1.0 else 0.0)
  }

  /** The closed interval of `step` is the meet of the two half-lines: `step`
      is the product of `right_step` at `low` and `left_step` at `high`, and
      the two half steps at one threshold overlap only at the threshold. */
  lemma StepIsMeetOfHalfSteps(values: seq<real>, low: real, high: real)
    ensures forall i :: 0 <= i < |values| ==>
      Step(values, low, high)[i] == RightStep(values, low)[i] * LeftStep(values, high)[i]
    ensures forall i :: 0 <= i < |values| ==>
      LeftStep(values, low)[i] + RightStep(values, low)[i] == (if values[i] == low then 2.0 else 1.0)
  {
  }

  // ---------------------------------------------------------------------
  // Real-arithmetic facts the curve proofs rest on
  // ---------------------------------------------------------------------

  lemma DivisionByCrossProduct(a: real, b: real, c: real, d: real)
    requires b > 0.0 && d > 0.0
    requires a * d == c * b
    ensures a / b == c / d
  {
    var x, y := a / b, c / d;
    assert x * b == a;
    assert y * d == c;
    assert (x * b) * d == (y * d) * b;
    assert (x - y) * (b * d) == 0.0;
    assert b * d > 0.0;
  }

  lemma ReciprocalBelowOne(d: real)
    requires d > 1.0
    ensures 0.0 < 1.0 / d < 1.0
  {
    var r := 1.0 / d;
    assert r * d == 1.0;
    assert (1.0 - r) * d == d - 1.0;
  }

  lemma FractionBelowOne(p: real)
    requires p > 0.0
    ensures 0.0 < p / (1.0 + p) < 1.0
  {
    var r := p / (1.0 + p);
    assert r * (1.0 + p) == p;
    assert (1.0 - r) * (1.0 + p) == 1.0;
  }

  lemma ReciprocalAntitone(a: real, b: real)
    requires 0.0 < a <= b
    ensures 1.0 / b <= 1.0 / a
  {
    var x, y := 1.0 / a, 1.0 / b;
    assert x * a == 1.0 && y * b == 1.0;
    assert x > 0.0;
    assert x * b >= x * a;
    assert (x - y) * b == x * b - 1.0;
  }

  lemma ProductMonotone(s: real, l: real, x: real, y: real)
    requires s >= 0.0 && l > 0.0 && x <= y
    ensures s * x * l <= s * y * l
  {
    MulMonotone(s, x, y);
    MulMonotone(l, s * x, s * y);
    assert s * x * l == l * (s * x);
    assert s * y * l == l * (s * y);
  }

  lemma MulMonotone(k: real, x: real, y: real)
    requires k >= 0.0 && x <= y
    ensures k * x <= k * y
  {
    MulNonNegative(k, y - x);
    assert k * (y - x) == k * y - k * x;
  }

  lemma MulNonNegative(a: real, b: real)
    requires a >= 0.0 && b >= 0.0
    ensures a * b >= 0.0
  {
  }

  lemma SlopeNonNegative(k: real, low: real, high: real)
    requires k >= 0.0 && low < high
    ensures 10.0 * k / (high - low) >= 0.0
  {
    var a, b := 10.0 * k, high - low;
    assert (a / b) * b == a;
  }
}
