/**
 `UnitHandler` of `src/stray_recipe_manager/units.py`: a density registry that checks
 re-registrations against a relative tolerance, the dimensionality guards applied to parsed
 quantities and units, and the density-bridged conversion.
 */
module StrayUnits {
  import opened Wrappers
  import opened Quantities
  import opened Conversion

  /** The failures raised as `InvalidData`, plus pint's `DimensionalityError` when a
      re-registered density cannot be subtracted from the stored one. */
  datatype DataError =
    | WrongDimensionality(required: Dimensionality, actual: Dimensionality)
    | InconsistentDensity(item: string, density: Quantity, current: Quantity)
    | IncompatibleDimensions(stored: Dimensionality, given: Dimensionality)

  function Abs(x: real): real {
    if x < 0.0 then -x else x
  }

  /** The outcome of `add_density(item, density)` when `current` is already stored:
      `abs(current - density) > tolerance * current` raises, measured in the stored unit. */
  function Reregister(item: string, current: Quantity, density: Quantity, tolerance: real): (r: Outcome<DataError>)
    ensures r == Fail(IncompatibleDimensions(current.unit.dim, density.unit.dim))
        <==> current.unit.dim != density.unit.dim
    ensures r.Fail? ==> !r.error.WrongDimensionality?
    ensures r.Fail? && r.error.InconsistentDensity? ==> r.error == InconsistentDensity(item, density, current)
  {
    if current.unit.dim != density.unit.dim then
      Fail(IncompatibleDimensions(current.unit.dim, density.unit.dim))
    else if Abs(current.magnitude - To(density, current.unit).magnitude) > tolerance * current.magnitude then
      Fail(InconsistentDensity(item, density, current))
    else
      Pass
  }

  /** The tolerance test does not depend on the unit either density is written in: it
      compares the amounts, against the stored amount (not symmetrically). */
  lemma ReregisterByAmount(item: string, current: Quantity, density: Quantity, tolerance: real)
    requires current.unit.dim == density.unit.dim
    ensures Reregister(item, current, density, tolerance) == Fail(InconsistentDensity(item, density, current))
        <==> Abs(BaseMagnitude(current) - BaseMagnitude(density)) > tolerance * BaseMagnitude(current)
    ensures Reregister(item, current, density, tolerance).Pass?
        <==> Abs(BaseMagnitude(current) - BaseMagnitude(density)) <= tolerance * BaseMagnitude(current)
  {
    var cs := current.unit.scale;
    var x := current.magnitude - To(density, current.unit).magnitude;
    assert x * cs == BaseMagnitude(current) - BaseMagnitude(density) by {
      assert To(density, current.unit).magnitude * cs == BaseMagnitude(density);
    }
    assert Abs(x) * cs == Abs(x * cs);
    assert tolerance * current.magnitude * cs == tolerance * BaseMagnitude(current);
    assert Abs(x) > tolerance * current.magnitude <==> Abs(x) * cs > tolerance * current.magnitude * cs;
  }

  /** Re-adding the stored value never raises, when the stored magnitude and the tolerance
      are non-negative. */
  lemma ReaddIdenticalPasses(item: string, d: Quantity, tolerance: real)
    requires d.magnitude >= 0.0 && tolerance >= 0.0
    ensures Reregister(item, d, d, tolerance) == Pass
  {
    ToSelf(d);
  }

  /** The asymmetric test as written: with a negative stored magnitude and a positive
      tolerance, even re-adding the identical value raises. */
  lemma ReaddIdenticalNegativeFails(item: string, d: Quantity, tolerance: real)
    requires d.magnitude < 0.0 && tolerance > 0.0
    ensures Reregister(item, d, d, tolerance) == Fail(InconsistentDensity(item, d, d))
  {
    ToSelf(d);
  }

  /** A positive stored density re-registered as `current * (1 + eps)` in the same unit is
      kept exactly when `|eps|` is within the tolerance, and rejected otherwise. */
  lemma NearDuplicate(item: string, current: Quantity, eps: real, tolerance: real)
    requires current.magnitude > 0.0
    ensures var density := Quantity(current.magnitude * (1.0 + eps), current.unit);
      && (Reregister(item, current, density, tolerance) == Pass <==> Abs(eps) <= tolerance)
      && (Reregister(item, current, density, tolerance) == Fail(InconsistentDensity(item, density, current))
          <==> Abs(eps) > tolerance)
  {
    var m := current.magnitude;
    var density := Quantity(m * (1.0 + eps), current.unit);
    ToSelf(density);
    var gap := Abs(m - To(density, current.unit).magnitude);
    assert gap == m * Abs(eps) by {
      assert m - density.magnitude == -(m * eps);
    }
    assert gap > tolerance * m <==> Abs(eps) > tolerance by {
      assert m * Abs(eps) - tolerance * m == m * (Abs(eps) - tolerance);
    }
  }

  /** A density admitted by the loader's guard (`[mass]/[length]**3`) bridges volume to mass
      by multiplying and mass to volume by dividing, and cannot reach a length. */
  lemma LoadedDensityBridges(densities: map<string, Quantity>, item: string, q: Quantity, u: Unit)
    requires item in densities && densities[item].unit.dim == MassPerVolume
    ensures q.unit.dim == Volume && u.dim == Mass ==>
      var r := Convert(densities, q, u, Some(item));
      r.Success? && BaseMagnitude(r.value) == BaseMagnitude(q) * BaseMagnitude(densities[item])
    ensures q.unit.dim == Mass && u.dim == Volume && densities[item].magnitude != 0.0 ==>
      var r := Convert(densities, q, u, Some(item));
      r.Success? && BaseMagnitude(r.value) * BaseMagnitude(densities[item]) == BaseMagnitude(q)
    ensures q.unit.dim == Volume && u.dim == Length ==>
      Convert(densities, q, u, Some(item)) == Failure(UnableToConvert)
  {
    if q.unit.dim == Volume && u.dim == Mass {
      ConvertMultiplies(densities, q, u, item);
    }
    if q.unit.dim == Mass && u.dim == Volume {
      ConvertDivides(densities, q, u, item);
    }
  }

  class UnitHandler {
    var densities: map<string, Quantity>
    const tolerance: real

    /** `UnitHandler(unit_registry, tolerance)`, with the same default tolerance of 1e-3. */
    constructor (tolerance: real := 0.001)
      ensures densities == map[] && this.tolerance == tolerance
    {
      densities := map[];
      this.tolerance := tolerance;
    }

    /** `parse_quantity(text, dimensionality)` once pint has parsed `text` into `parsed`:
        the quantity is returned when no dimensionality is required or it has the required
        one, and `InvalidData` is raised otherwise. */
    function ParseQuantity(parsed: Quantity, required: Option<Dimensionality>): (r: Result<Quantity, DataError>)
      ensures r.Success? <==> (required.None? || parsed.unit.dim == required.value)
      ensures r.Success? ==> r.value == parsed
      ensures r.Failure? ==> r.error == WrongDimensionality(required.value, parsed.unit.dim)
    {
      if required.Some? && parsed.unit.dim != required.value then
        Failure(WrongDimensionality(required.value, parsed.unit.dim))
      else
        Success(parsed)
    }

    /** `parse_unit(text, dimensionality)` once pint has parsed `text` into `parsed`. */
    function ParseUnit(parsed: Unit, required: Option<Dimensionality>): (r: Result<Unit, DataError>)
      ensures r.Success? <==> (required.None? || parsed.dim == required.value)
      ensures r.Success? ==> r.value == parsed
      ensures r.Failure? ==> r.error == WrongDimensionality(required.value, parsed.dim)
    {
      if required.Some? && parsed.dim != required.value then
        Failure(WrongDimensionality(required.value, parsed.dim))
      else
        Success(parsed)
    }

    /** `add_density`: an absent item is stored; a present one is never overwritten, and the
        call raises or not as `Reregister` says. No other entry changes. */
    method AddDensity(item: string, density: Quantity) returns (r: Outcome<DataError>)
      modifies this
      ensures item !in old(densities) ==> r == Pass && densities == old(densities)[item := density]
      ensures item in old(densities) ==>
        r == Reregister(item, old(densities)[item], density, tolerance) && densities == old(densities)
    {
      if item !in densities {
        densities := densities[item := density];
        r := Pass;
      } else {
        r := Reregister(item, densities[item], density, tolerance);
      }
    }

    /** `get_density`: the stored density, or `None` for an absent item. */
    function GetDensity(item: string): (r: Option<Quantity>)
      reads this
      ensures r.Some? <==> item in densities
      ensures r.Some? ==> r.value == densities[item]
    {
      if item in densities then Some(densities[item]) else None
    }

    /** `clear_densities`: forget every density. */
    method ClearDensities()
      modifies this
      ensures densities == map[]
    {
      densities := map[];
    }

    /** `do_conversion`: reads the registry and never changes it. */
    function DoConversion(q: Quantity, u: Unit, identifier: Option<string>): (r: Result<Quantity, ConversionError>)
      reads this
      ensures q.unit.dim == u.dim ==> r == Success(To(q, u))
      ensures r.Success? ==> r.value.unit == u
      ensures q.unit.dim != u.dim ==>
        (r == Failure(NoDensityKnown(identifier)) <==> identifier.None? || identifier.value !in densities)
    {
      Convert(densities, q, u, identifier)
    }
  }

  /** Registering a density on a fresh handler and reading it back gives it exactly. */
  method RegisterThenGet(item: string, d: Quantity, tolerance: real) returns (added: Outcome<DataError>, got: Option<Quantity>)
    ensures added == Pass && got == Some(d)
  {
    var h := new UnitHandler(tolerance);
    added := h.AddDensity(item, d);
    got := h.GetDensity(item);
  }

  /** A second registration of the same item never replaces the first value; it raises
      exactly as `Reregister` says. */
  method RegisterTwice(item: string, first: Quantity, second: Quantity, tolerance: real)
    returns (again: Outcome<DataError>, got: Option<Quantity>)
    ensures again == Reregister(item, first, second, tolerance)
    ensures got == Some(first)
  {
    var h := new UnitHandler(tolerance);
    var _ := h.AddDensity(item, first);
    again := h.AddDensity(item, second);
    got := h.GetDensity(item);
  }

  /** After `clear_densities`, a registered item looks up as absent (on a handler built with
      the default tolerance, as the command-line tool builds it). */
  method ClearThenGet(item: string, d: Quantity) returns (got: Option<Quantity>)
    ensures got == None
  {
    var h := new UnitHandler();
    var _ := h.AddDensity(item, d);
    h.ClearDensities();
    got := h.GetDensity(item);
  }
}
