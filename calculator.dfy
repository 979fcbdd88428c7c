/**
 * The calculator page as a stateful object: four form fields and the
 * density feed the estimator, and every change to one of them is followed
 * by a recomputation that publishes the rounded tonnage and cost.
 */
module Calculator {
  import opened JsNumber
  import opened Estimator

  class AsphaltCalculator {
    var length: FieldValue
    var width: FieldValue
    var thickness: FieldValue
    var price: FieldValue
    var density: real
    /** The displayed results. */
    var tons: real
    var totalCost: real

    /** The current input state. */
    function Snapshot(): Inputs
      reads this
    {
      Inputs(length, width, thickness, price, density)
    }

    /** The displayed results are exactly the estimate of the current inputs. */
    ghost predicate Valid()
      reads this
    {
      Outputs(tons, totalCost) == EstimateOf(Snapshot())
    }

    /** The page as first shown: length, width and price blank, thickness 3 in,
        density 145 lb/ft^3; the first recomputation leaves 0 tons and $0. */
    constructor ()
      ensures length == Empty && width == Empty && price == Empty
      ensures thickness == Num(Finite(DefaultThickness)) && density == DefaultDensity
      ensures tons == 0.0 && totalCost == 0.0
      ensures Valid()
    {
      length, width, price := Empty, Empty, Empty;
      thickness := Num(Finite(DefaultThickness));
      density := DefaultDensity;
      tons, totalCost := 0.0, 0.0;
      new;
      Recompute();
      BlankFieldGivesZero(Snapshot());
    }

    /** The recomputation that runs after any input changes: coerce the four
        fields, convert units, and publish both results rounded to hundredths.
        Nothing from the previous results is read. */
    method Recompute()
      modifies this`tons, this`totalCost
      ensures Valid()
    {
      var l := Coerce(length);
      var w := Coerce(width);
      var t := Coerce(thickness);
      var p := Coerce(price);
      var cubicFeet := l * w * (t / InchesPerFoot);
      var weightLbs := cubicFeet * density;
      var weightTons := weightLbs / PoundsPerTon;
      var cost := weightTons * p;
      assert Convert(l, w, t, p, density) == Breakdown(cubicFeet, weightLbs, weightTons, cost);
      tons := ToFixed2(weightTons);
      totalCost := ToFixed2(cost);
    }

    /** An edit of the length field, followed by a recomputation. */
    method SetLength(v: Number)
      modifies this
      ensures length == Num(v)
      ensures width == old(width) && thickness == old(thickness)
      ensures price == old(price) && density == old(density)
      ensures Valid()
    {
      length := Num(v);
      Recompute();
    }

    /** An edit of the width field, followed by a recomputation. */
    method SetWidth(v: Number)
      modifies this
      ensures width == Num(v)
      ensures length == old(length) && thickness == old(thickness)
      ensures price == old(price) && density == old(density)
      ensures Valid()
    {
      width := Num(v);
      Recompute();
    }

    /** An edit of the thickness, from the slider or from its number field,
        followed by a recomputation. The slider's bounds are not enforced
        here: any number is accepted. */
    method SetThickness(v: Number)
      modifies this
      ensures thickness == Num(v)
      ensures length == old(length) && width == old(width)
      ensures price == old(price) && density == old(density)
      ensures Valid()
    {
      thickness := Num(v);
      Recompute();
    }

    /** An edit of the price field, followed by a recomputation; the
        displayed tonnage stays as it was. */
    method SetPrice(v: Number)
      modifies this
      ensures price == Num(v)
      ensures length == old(length) && width == old(width)
      ensures thickness == old(thickness) && density == old(density)
      ensures Valid()
      ensures old(Valid()) ==> tons == old(tons)
    {
      ghost var before := Snapshot();
      price := Num(v);
      Recompute();
      PriceIndependent(Coerce(before.length), Coerce(before.width), Coerce(before.thickness),
                       Coerce(before.price), Coerce(price), before.density);
    }

    /** A change of the density, followed by a recomputation. */
    method SetDensity(d: real)
      modifies this
      ensures density == d
      ensures length == old(length) && width == old(width)
      ensures thickness == old(thickness) && price == old(price)
      ensures Valid()
    {
      density := d;
      Recompute();
    }
  }

  /** A session with the page's placeholder values: with only the length
      entered nothing is estimated yet; after the width, 18.13 tons show; the
      price then adds a cost of $1450 and leaves the tonnage alone. */
  method PlaceholderSession() returns (lengthOnly: real, tonsBeforePrice: real,
                                       tons: real, totalCost: real)
    ensures lengthOnly == 0.0
    ensures tonsBeforePrice == 18.13
    ensures tons == 18.13 && totalCost == 1450.0
  {
    var c := new AsphaltCalculator();
    c.SetLength(Finite(50.0));
    BlankFieldGivesZero(c.Snapshot());
    lengthOnly := c.tons;
    c.SetWidth(Finite(20.0));
    assert Coerce(c.price) == 0.0;
    WorkedExample();
    PriceIndependent(50.0, 20.0, DefaultThickness, 0.0, 80.0, DefaultDensity);
    tonsBeforePrice := c.tons;
    c.SetPrice(Finite(80.0));
    tons, totalCost := c.tons, c.totalCost;
  }
}
