/**
 * The asphalt estimator: five inputs (length and width in feet, thickness
 * in inches, price in dollars per ton, density in pounds per cubic foot)
 * become the tonnage of hot-mix asphalt and its cost, each rounded to
 * hundredths.
 */
module Estimator {
  import opened JsNumber

  /** Density of compacted hot-mix asphalt the page starts with, lb/ft^3. */
  const DefaultDensity: real := 145.0
  /** Thickness the page starts with, in inches. */
  const DefaultThickness: real := 3.0
  const InchesPerFoot: real := 12.0
  /** Pounds in a US ton. */
  const PoundsPerTon: real := 2000.0

  /** One snapshot of the page's input state. Length, width, thickness and
      price are form fields; density is a plain number no field edits. */
  datatype Inputs = Inputs(
    length: FieldValue,
    width: FieldValue,
    thickness: FieldValue,
    price: FieldValue,
    density: real)

  /** The intermediate quantities of one estimate, none of them rounded. */
  datatype Breakdown = Breakdown(cubicFeet: real, weightLbs: real, weightTons: real, cost: real)

  /** What the page displays: tonnage and cost, rounded to hundredths. */
  datatype Outputs = Outputs(tons: real, totalCost: real)

  /** The unit conversions, in the order the page performs them. Taken
      together they divide length x width x thickness x density by 12 * 2000:
      the volume is length x width x thickness over 12 (the thickness is in
      inches), the tonnage is the volume times the density over 2000, and the
      cost is that unrounded tonnage times the price. */
  function Convert(l: real, w: real, t: real, p: real, density: real): (b: Breakdown)
    ensures b.cubicFeet * InchesPerFoot == l * w * t
    ensures b.weightTons * (InchesPerFoot * PoundsPerTon) == l * w * t * density
    ensures b.cost == b.weightTons * p
  {
    var cubicFeet := l * w * (t / InchesPerFoot);
    var weightLbs := cubicFeet * density;
    var weightTons := weightLbs / PoundsPerTon;
    var cost := weightTons * p;
    assert weightLbs * InchesPerFoot == l * w * t * density;
    Breakdown(cubicFeet, weightLbs, weightTons, cost)
  }

  /** The estimate the page shows: tonnage and cost, each rounded to
      hundredths by `parseFloat(x.toFixed(2))`. Each output is within half a
      hundredth of its exact value, and the exact value of the cost is the
      unrounded tonnage times the price. */
  function Estimate(l: real, w: real, t: real, p: real, density: real): (r: Outputs)
    ensures Abs(r.tons - Convert(l, w, t, p, density).weightTons) <= 0.005
    ensures Abs(r.totalCost - Convert(l, w, t, p, density).weightTons * p) <= 0.005
  {
    var b := Convert(l, w, t, p, density);
    Outputs(ToFixed2(b.weightTons), ToFixed2(b.cost))
  }

  /** The estimate of a snapshot of the page's state: each form field goes
      through `Number(x) || 0` first; density is used as it is. */
  function EstimateOf(i: Inputs): Outputs {
    Estimate(Coerce(i.length), Coerce(i.width), Coerce(i.thickness), Coerce(i.price), i.density)
  }

  /** The cost is rounded from the unrounded tonnage times the price. */
  lemma CostFromUnroundedTons(l: real, w: real, t: real, p: real, density: real)
    ensures Estimate(l, w, t, p, density).totalCost
            == ToFixed2(Convert(l, w, t, p, density).weightTons * p)
  {
  }

  /** Rounding the displayed tonnage first would give a different cost:
      18.125 tons at $80 cost $1450.00, whereas 18.13 tons at $80 is $1450.40. */
  lemma CostNotFromRoundedTons()
    ensures ToFixed2(Estimate(50.0, 20.0, 3.0, 80.0, DefaultDensity).tons * 80.0)
            != Estimate(50.0, 20.0, 3.0, 80.0, DefaultDensity).totalCost
  {
    WorkedExample();
    assert HundredthsHalfUp(1450.4) == 145040;
  }

  /** A zero length, width, thickness or density gives 0 tons and $0,
      whatever the price. */
  lemma ZeroAbsorbs(l: real, w: real, t: real, p: real, density: real)
    requires l == 0.0 || w == 0.0 || t == 0.0 || density == 0.0
    ensures Estimate(l, w, t, p, density) == Outputs(0.0, 0.0)
  {
    var b := Convert(l, w, t, p, density);
    assert b.weightTons * (InchesPerFoot * PoundsPerTon) == 0.0;
    assert b.weightTons == 0.0;
  }

  /** A zero price zeroes the cost only; the tonnage is whatever the other
      four inputs give. */
  lemma ZeroPriceCostsNothing(l: real, w: real, t: real, p: real, density: real)
    ensures Estimate(l, w, t, 0.0, density).totalCost == 0.0
    ensures Estimate(l, w, t, 0.0, density).tons == Estimate(l, w, t, p, density).tons
  {
    assert Convert(l, w, t, 0.0, density).cost == 0.0;
  }

  /** The tonnage depends on length, width, thickness and density only:
      changing the price alone never changes it. */
  lemma PriceIndependent(l: real, w: real, t: real, p: real, p': real, density: real)
    ensures Estimate(l, w, t, p', density).tons == Estimate(l, w, t, p, density).tons
  {
  }

  /** With every input non-negative, neither output is negative. */
  lemma NonNegative(l: real, w: real, t: real, p: real, density: real)
    requires l >= 0.0 && w >= 0.0 && t >= 0.0 && p >= 0.0 && density >= 0.0
    ensures Estimate(l, w, t, p, density).tons >= 0.0
    ensures Estimate(l, w, t, p, density).totalCost >= 0.0
  {
    assert l * w >= 0.0;
    assert l * w * t >= 0.0;
    assert l * w * t * density >= 0.0;
    var b := Convert(l, w, t, p, density);
    assert b.weightTons >= 0.0;
    assert b.cost >= 0.0;
  }

  lemma MulMonotone(a: real, a': real, b: real, b': real)
    requires 0.0 <= a <= a' && 0.0 <= b <= b'
    ensures 0.0 <= a * b <= a' * b'
  {
    assert a * b <= a' * b by {
      assert (a' - a) * b >= 0.0;
    }
    assert a' * b <= a' * b' by {
      assert a' * (b' - b) >= 0.0;
    }
  }

  /** Over non-negative factors, length x width x thickness x density grows
      with each of them. */
  lemma ProductMonotone(l: real, w: real, t: real, d: real,
                        l': real, w': real, t': real, d': real)
    requires 0.0 <= l <= l' && 0.0 <= w <= w' && 0.0 <= t <= t' && 0.0 <= d <= d'
    ensures l * w * t * d <= l' * w' * t' * d'
  {
    MulMonotone(l, l', w, w');
    MulMonotone(l * w, l' * w', t, t');
    MulMonotone(l * w * t, l' * w' * t', d, d');
  }

  /** Increasing any of length, width, thickness or density (all of them
      non-negative) never decreases the displayed tonnage, whatever the two
      prices. */
  lemma TonsMonotone(l: real, w: real, t: real, p: real, density: real,
                     l': real, w': real, t': real, p': real, density': real)
    requires 0.0 <= l <= l' && 0.0 <= w <= w' && 0.0 <= t <= t'
    requires 0.0 <= density <= density'
    ensures Estimate(l, w, t, p, density).tons <= Estimate(l', w', t', p', density').tons
  {
    ProductMonotone(l, w, t, density, l', w', t', density');
    var x := Convert(l, w, t, p, density).weightTons;
    var y := Convert(l', w', t', p', density').weightTons;
    assert x * (InchesPerFoot * PoundsPerTon) <= y * (InchesPerFoot * PoundsPerTon);
    assert x <= y;
    ToFixed2Monotone(x, y);
  }

  /** The page's placeholders, 50 ft by 20 ft, at the default 3 in and
      145 lb/ft^3 and $80 per ton: 250 ft^3 and 36250 lb make 18.125 tons,
      shown as 18.13 tons and $1450. */
  lemma WorkedExample()
    ensures Convert(50.0, 20.0, DefaultThickness, 80.0, DefaultDensity)
            == Breakdown(250.0, 36250.0, 18.125, 1450.0)
    ensures Estimate(50.0, 20.0, DefaultThickness, 80.0, DefaultDensity) == Outputs(18.13, 1450.0)
  {
    assert HundredthsHalfUp(18.125) == 1813;
    assert HundredthsHalfUp(1450.0) == 145000;
  }

  /** 100 ft by 10 ft at 4 in, a density of 150 lb/ft^3 and $90 per ton:
      exactly 50000 lb, so 25 tons and $2250. */
  lemma DenseSlabExample()
    ensures Convert(100.0, 10.0, 4.0, 90.0, 150.0).weightLbs == 50000.0
    ensures Estimate(100.0, 10.0, 4.0, 90.0, 150.0) == Outputs(25.0, 2250.0)
  {
    assert Convert(100.0, 10.0, 4.0, 90.0, 150.0).weightTons == 25.0;
    assert HundredthsHalfUp(25.0) == 2500;
    assert HundredthsHalfUp(2250.0) == 225000;
  }

  /** A blank or non-numeric length, width or thickness field is read as 0,
      so the page shows 0 tons and $0 and nothing fails. */
  lemma BlankFieldGivesZero(i: Inputs)
    requires i.length == Empty || i.length == Num(NaN) ||
             i.width == Empty || i.width == Num(NaN) ||
             i.thickness == Empty || i.thickness == Num(NaN)
    ensures EstimateOf(i) == Outputs(0.0, 0.0)
  {
    ZeroAbsorbs(Coerce(i.length), Coerce(i.width), Coerce(i.thickness), Coerce(i.price), i.density);
  }
}
