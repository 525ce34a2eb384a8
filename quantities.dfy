/**
 An abstract model of the part of the pint library the conversion engine relies on.

 A dimensionality is the vector of exponents of the base dimensions; dividing two
 dimensionalities subtracts exponents and multiplying adds them. A unit is a positive
 scale factor to the coherent SI base unit of its dimensionality, and a quantity is an
 exact real magnitude in a unit. `To` is pint's `Quantity.to`, defined only between units
 of equal dimensionality.
 */
module Quantities {

  /** Exponents of pint's base dimensions; pint allows fractional exponents, hence `real`. */
  datatype Dimensionality = Dimensionality(
    mass: real, length: real, time: real, current: real,
    temperature: real, substance: real, luminosity: real)

  const Mass := Dimensionality(1.0, 0.0, 0.0, 0.0, 0.0, 0.0, 0.0)
  const Length := Dimensionality(0.0, 1.0, 0.0, 0.0, 0.0, 0.0, 0.0)
  const Volume := Dimensionality(0.0, 3.0, 0.0, 0.0, 0.0, 0.0, 0.0)
  /** `[mass]/[length]**3`, the dimensionality required of a loaded density. */
  const MassPerVolume := Dimensionality(1.0, -3.0, 0.0, 0.0, 0.0, 0.0, 0.0)

  /** `a / b` on dimensionalities. */
  function DimDiv(a: Dimensionality, b: Dimensionality): Dimensionality {
    Dimensionality(
      a.mass - b.mass, a.length - b.length, a.time - b.time, a.current - b.current,
      a.temperature - b.temperature, a.substance - b.substance, a.luminosity - b.luminosity)
  }

  /** `a * b` on dimensionalities. */
  function DimMul(a: Dimensionality, b: Dimensionality): Dimensionality {
    Dimensionality(
      a.mass + b.mass, a.length + b.length, a.time + b.time, a.current + b.current,
      a.temperature + b.temperature, a.substance + b.substance, a.luminosity + b.luminosity)
  }

  type Scale = r: real | r > 0.0 witness 1.0

  /** A multiplicative unit: one of it is `scale` base units of dimensionality `dim`. */
  datatype Unit = Unit(scale: Scale, dim: Dimensionality)

  function UnitMul(a: Unit, b: Unit): Unit {
    Unit(a.scale * b.scale, DimMul(a.dim, b.dim))
  }

  function UnitDiv(a: Unit, b: Unit): Unit {
    Unit(a.scale / b.scale, DimDiv(a.dim, b.dim))
  }

  datatype Quantity = Quantity(magnitude: real, unit: Unit)

  /** The magnitude of `q` expressed in base units. */
  function BaseMagnitude(q: Quantity): real {
    q.magnitude * q.unit.scale
  }

  /** Pint's `==` on quantities: equal dimensionality and equal amount in base units. */
  predicate Equivalent(q: Quantity, p: Quantity) {
    q.unit.dim == p.unit.dim && BaseMagnitude(q) == BaseMagnitude(p)
  }

  /** `q.to(u)`: the same amount, expressed in `u`. */
  function To(q: Quantity, u: Unit): (r: Quantity)
    requires q.unit.dim == u.dim
    ensures r.unit == u
  {
    Quantity(q.magnitude * q.unit.scale / u.scale, u)
  }

  /** `q * p`. */
  function QuantityMul(q: Quantity, p: Quantity): Quantity {
    Quantity(q.magnitude * p.magnitude, UnitMul(q.unit, p.unit))
  }

  /** `q / p`; Python raises `ZeroDivisionError` when `p`'s magnitude is zero. */
  function QuantityDiv(q: Quantity, p: Quantity): Quantity
    requires p.magnitude != 0.0
  {
    Quantity(q.magnitude / p.magnitude, UnitDiv(q.unit, p.unit))
  }

  /** `To` changes the unit and keeps the amount. */
  lemma ToKeepsAmount(q: Quantity, u: Unit)
    requires q.unit.dim == u.dim
    ensures Equivalent(To(q, u), q)
  {
    var m := q.magnitude * q.unit.scale;
    assert m / u.scale * u.scale == m;
  }

  /** Converting to a unit and back gives the original quantity exactly. */
  lemma ToRoundTrip(q: Quantity, u: Unit)
    requires q.unit.dim == u.dim
    ensures To(To(q, u), q.unit) == q
  {
    var m := q.magnitude * q.unit.scale;
    assert m / u.scale * u.scale == m;
    assert m / q.unit.scale == q.magnitude;
  }

  /** Two quantities with the same amount convert to the same quantity. */
  lemma ToEquivalent(x: Quantity, y: Quantity, u: Unit)
    requires Equivalent(x, y) && x.unit.dim == u.dim
    ensures To(x, u) == To(y, u)
  {
  }

  /** Converting a quantity to its own unit gives it back. */
  lemma ToSelf(q: Quantity)
    ensures To(q, q.unit) == q
  {
    assert q.magnitude * q.unit.scale / q.unit.scale == q.magnitude;
  }

  /** Multiplying quantities multiplies their amounts. */
  lemma MulAmount(q: Quantity, p: Quantity)
    ensures BaseMagnitude(QuantityMul(q, p)) == BaseMagnitude(q) * BaseMagnitude(p)
  {
  }

  /** Dividing quantities divides their amounts. */
  lemma DivAmount(q: Quantity, p: Quantity)
    requires p.magnitude != 0.0
    ensures BaseMagnitude(QuantityDiv(q, p)) * BaseMagnitude(p) == BaseMagnitude(q)
  {
    var a, b := q.magnitude / p.magnitude, q.unit.scale / p.unit.scale;
    calc {
      BaseMagnitude(QuantityDiv(q, p)) * BaseMagnitude(p);
      (a * b) * (p.magnitude * p.unit.scale);
      (a * p.magnitude) * (b * p.unit.scale);
      q.magnitude * q.unit.scale;
    }
  }

  // Units of pint's default registry used by the conversion scenarios, as scales to the
  // SI base units (kilogram, metre, cubic metre).

  /** US cup: a gallon (231 cubic inches, an inch being 0.0254 m) over 16. */
  const CupScale: Scale := 0.0002365882365
  const Cup := Unit(CupScale, Volume)
  /** US teaspoon: a cup is 48 teaspoons. */
  const Teaspoon := Unit(CupScale / 48.0, Volume)
  const Gram := Unit(0.001, Mass)
  const Mile := Unit(1609.344, Length)
  /** `g/cp`, the unit of the densities in the conversion scenarios. */
  const GramPerCup := UnitDiv(Gram, Cup)

  /** The scale relations between the scenario units: 48 teaspoons to the cup, and one
      cup of `g/cp` is one gram. */
  lemma ScenarioScales()
    ensures CupScale / Teaspoon.scale == 48.0
    ensures CupScale * GramPerCup.scale == Gram.scale
    ensures Gram.scale / GramPerCup.scale == CupScale
  {
    assert GramPerCup.scale == 0.001 / CupScale;
  }
}
