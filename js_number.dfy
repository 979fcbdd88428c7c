/**
 * The small part of JavaScript's number semantics the asphalt estimator
 * relies on: turning a form field's state into a number with
 * `Number(x) || 0`, and rounding a result to hundredths with
 * `parseFloat(x.toFixed(2))`.
 *
 * Doubles are taken as exact reals: a finite number is its real value, and
 * NaN is kept as a separate case because the coercion removes it.
 */
module JsNumber {

  /** A JavaScript number as the estimator sees it. */
  datatype Number = NaN | Finite(value: real)

  /** The state of one numeric form field: the empty string before the
      first edit, or the number the last edit produced. */
  datatype FieldValue = Empty | Num(n: Number)

  function Abs(x: real): real {
    if x < 0.0 then -x else x
  }

  /** `Number(v)` on a field's state; the empty string converts to 0. */
  function ToNumber(v: FieldValue): Number {
    match v
    case Empty => Finite(0.0)
    case Num(n) => n
  }

  /** ToBoolean on a number: false exactly for zero (either sign) and NaN. */
  predicate Truthy(n: Number) {
    n.Finite? && n.value != 0.0
  }

  /** The `||` operator on numbers: its left operand when that is truthy,
      otherwise its right operand. */
  function LogicalOr(a: Number, b: Number): Number {
    if Truthy(a) then a else b
  }

  /** `Number(v) || 0`: a blank field and NaN become 0, any finite number
      (negative ones included) passes through unchanged, so the result is
      never NaN. */
  function Coerce(v: FieldValue): (r: real)
    ensures v.Empty? ==> r == 0.0
    ensures v.Num? && v.n.NaN? ==> r == 0.0
    ensures v.Num? && v.n.Finite? ==> r == v.n.value
  {
    match LogicalOr(ToNumber(v), Finite(0.0))
    case Finite(x) => x
    case NaN => assert false; 0.0
  }

  /** From 10^21 upward `toFixed` prints the number itself instead of a
      fixed-point numeral. */
  const FixedLimit: real := 1000000000000000000000.0

  /** The integer n nearest to 100 * y, the larger one on a tie. */
  function HundredthsHalfUp(y: real): int {
    (y * 100.0 + 0.5).Floor
  }

  /** The magnitude `toFixed(2)` prints for a non-negative y. */
  function FixedMagnitude(y: real): real {
    if y >= FixedLimit then y else HundredthsHalfUp(y) as real / 100.0
  }

  /** `parseFloat(x.toFixed(2))`: the sign is set aside, the magnitude is
      rounded to the nearest hundredth (ties upward) and the sign put back,
      so a negative value rounds half away from zero. The result is within
      half a hundredth of x, keeps x's sign and keeps 0 fixed. */
  function ToFixed2(x: real): (r: real)
    ensures Abs(r - x) <= 0.005
    ensures x >= 0.0 ==> r >= 0.0
    ensures x <= 0.0 ==> r <= 0.0
  {
    if x < 0.0 then -FixedMagnitude(-x) else FixedMagnitude(x)
  }

  /** How far n hundredths lie from y, measured in hundredths. */
  function Distance(n: int, y: real): real {
    Abs(n as real - 100.0 * y)
  }

  /** The choice `toFixed(2)` makes for a non-negative y below 10^21: n is an
      integer for which n / 100 - y is as close to zero as possible, and the
      larger of two such integers. */
  ghost predicate NearestHundredth(n: int, y: real) {
    forall m: int ::
      Distance(n, y) <= Distance(m, y) && (Distance(n, y) == Distance(m, y) ==> m <= n)
  }

  /** The half-up rounding is that choice. */
  lemma HalfUpIsNearest(y: real)
    ensures NearestHundredth(HundredthsHalfUp(y), y)
  {
    var k := HundredthsHalfUp(y);
    var v := 100.0 * y;
    assert k as real - 0.5 <= v < k as real + 0.5;
    forall m: int
      ensures Distance(k, y) <= Distance(m, y)
      ensures Distance(k, y) == Distance(m, y) ==> m <= k
    {
      if m > k {
        assert m as real >= k as real + 1.0;
      } else if m < k {
        assert m as real <= k as real - 1.0;
      }
    }
  }

  /** Only one integer is nearest with ties broken upward. */
  lemma NearestHundredthUnique(n: int, n': int, y: real)
    requires NearestHundredth(n, y) && NearestHundredth(n', y)
    ensures n == n'
  {
    assert Distance(n, y) <= Distance(n', y) && (Distance(n, y) == Distance(n', y) ==> n' <= n);
    assert Distance(n', y) <= Distance(n, y) && (Distance(n', y) == Distance(n, y) ==> n <= n');
  }

  /** Below 10^21 in magnitude, `parseFloat(x.toFixed(2))` is the sign of x
      times n / 100, for the integer n that the rounding rule picks for |x|. */
  lemma ToFixed2Rounds(x: real, n: int)
    requires Abs(x) < FixedLimit
    requires NearestHundredth(n, Abs(x))
    ensures ToFixed2(x) == (if x < 0.0 then -(n as real) else n as real) / 100.0
  {
    HalfUpIsNearest(Abs(x));
    NearestHundredthUnique(n, HundredthsHalfUp(Abs(x)), Abs(x));
  }

  /** From 10^21 upward in magnitude the value comes back unchanged. */
  lemma ToFixed2Large(x: real)
    requires Abs(x) >= FixedLimit
    ensures ToFixed2(x) == x
  {
  }

  lemma HalfUpBelowLimit(y: real)
    requires y < FixedLimit
    ensures HundredthsHalfUp(y) as real / 100.0 <= FixedLimit
  {
    var k := HundredthsHalfUp(y);
    var bound := 100000000000000000000000;
    assert bound as real == 100.0 * FixedLimit;
    assert (k as real) < bound as real + 0.5;
    assert k <= bound;
  }

  lemma HalfUpMonotone(y: real, z: real)
    requires y <= z
    ensures HundredthsHalfUp(y) as real / 100.0 <= HundredthsHalfUp(z) as real / 100.0
  {
    var a, b := y * 100.0 + 0.5, z * 100.0 + 0.5;
    assert a <= b;
    assert a.Floor <= b.Floor;
  }

  lemma FixedMagnitudeMonotone(y: real, z: real)
    requires 0.0 <= y <= z
    ensures FixedMagnitude(y) <= FixedMagnitude(z)
  {
    if y < FixedLimit && z >= FixedLimit {
      HalfUpBelowLimit(y);
    } else if z < FixedLimit {
      HalfUpMonotone(y, z);
    }
  }

  /** Rounding never reverses the order of two values. */
  lemma ToFixed2Monotone(x: real, y: real)
    requires x <= y
    ensures ToFixed2(x) <= ToFixed2(y)
  {
    if y < 0.0 {
      FixedMagnitudeMonotone(-y, -x);
    } else if x >= 0.0 {
      FixedMagnitudeMonotone(x, y);
    }
  }
}
