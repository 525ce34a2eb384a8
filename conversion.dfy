/**
 The density-bridged conversion engine shared by `UnitHandler.do_conversion` and
 `DensityRegistry.do_conversion`: the two are the same chain of dimensionality tests,
 over the registry's map from identifier to density.
 */
module Conversion {
  import opened Wrappers
  import opened Quantities

  /** The failures of a conversion. The first two are `InvalidConversion`; the last is the
      `ZeroDivisionError` Python raises when dividing by a density of magnitude zero. */
  datatype ConversionError =
    | NoDensityKnown(identifier: Option<string>)
    | UnableToConvert
    | DivisionByZero

  /** How Python's `format` renders the optional identifier. */
  function IdentifierText(identifier: Option<string>): string {
    match identifier
    case None => "None"
    case Some(s) => s
  }

  /** The text of an `InvalidConversion`. */
  function Message(e: ConversionError): (r: string)
    requires !e.DivisionByZero?
    ensures e.NoDensityKnown? ==> "No density known for '" + IdentifierText(e.identifier) + "'" <= r
    ensures e.UnableToConvert? ==> r == "Unable to convert"
  {
    match e
    case NoDensityKnown(identifier) =>
      "No density known for '" + IdentifierText(identifier) + "' in dimensional conversion"
    case UnableToConvert => "Unable to convert"
  }

  /** `do_conversion(in_quantity, out_unit, identifier)` over the registered `densities`. */
  function Convert(densities: map<string, Quantity>, q: Quantity, u: Unit, identifier: Option<string>)
    : (r: Result<Quantity, ConversionError>)
    ensures r.Success? ==> r.value.unit == u
    ensures r.Failure? && r.error.NoDensityKnown? ==> r.error.identifier == identifier
  {
    if q.unit.dim == u.dim then
      Success(To(q, u))
    else if identifier.None? || identifier.value !in densities then
      Failure(NoDensityKnown(identifier))
    else
      var density := densities[identifier.value];
      if DimDiv(q.unit.dim, u.dim) == density.unit.dim then
        if density.magnitude == 0.0 then Failure(DivisionByZero)
        else Success(To(QuantityDiv(q, density), u))
      else if DimDiv(u.dim, q.unit.dim) == density.unit.dim then
        Success(To(QuantityMul(q, density), u))
      else
        Failure(UnableToConvert)
  }

  /** Same-dimension conversion needs no density: the identifier and the registry are
      ignored, and the result is the same amount in `u`. */
  lemma ConvertSameDimension(densities: map<string, Quantity>, q: Quantity, u: Unit, identifier: Option<string>)
    requires q.unit.dim == u.dim
    ensures Convert(densities, q, u, identifier) == Success(To(q, u))
    ensures Equivalent(Convert(densities, q, u, identifier).value, q)
  {
    ToKeepsAmount(q, u);
  }

  /** A cross-dimension conversion fails for want of a density exactly when no identifier
      is given or the identifier is not registered. */
  lemma ConvertNoDensity(densities: map<string, Quantity>, q: Quantity, u: Unit, identifier: Option<string>)
    requires q.unit.dim != u.dim
    ensures Convert(densities, q, u, identifier) == Failure(NoDensityKnown(identifier))
        <==> identifier.None? || identifier.value !in densities
  {
  }

  /** Mass to volume and the like: when `dim(q) / dim(u)` is the density's dimensionality,
      the result is `q / density`, so the result times the density is `q`. */
  lemma ConvertDivides(densities: map<string, Quantity>, q: Quantity, u: Unit, identifier: string)
    requires q.unit.dim != u.dim && identifier in densities
    requires DimDiv(q.unit.dim, u.dim) == densities[identifier].unit.dim
    ensures densities[identifier].magnitude == 0.0 ==>
      Convert(densities, q, u, Some(identifier)) == Failure(DivisionByZero)
    ensures densities[identifier].magnitude != 0.0 ==>
      var r := Convert(densities, q, u, Some(identifier));
      r.Success? && BaseMagnitude(r.value) * BaseMagnitude(densities[identifier]) == BaseMagnitude(q)
  {
    var d := densities[identifier];
    if d.magnitude != 0.0 {
      ToKeepsAmount(QuantityDiv(q, d), u);
      DivAmount(q, d);
    }
  }

  /** Volume to mass and the like: when `dim(u) / dim(q)` is the density's dimensionality,
      the divide test fails and the result is `q * density`. */
  lemma ConvertMultiplies(densities: map<string, Quantity>, q: Quantity, u: Unit, identifier: string)
    requires q.unit.dim != u.dim && identifier in densities
    requires DimDiv(u.dim, q.unit.dim) == densities[identifier].unit.dim
    ensures var r := Convert(densities, q, u, Some(identifier));
      r.Success? && BaseMagnitude(r.value) == BaseMagnitude(q) * BaseMagnitude(densities[identifier])
  {
    var d := densities[identifier];
    BridgesExclusive(q.unit.dim, u.dim, d.unit.dim);
    ToKeepsAmount(QuantityMul(q, d), u);
    MulAmount(q, d);
  }

  /** With a registered density, the conversion is impossible exactly when neither
      bridging direction matches the density's dimensionality. */
  lemma ConvertUnable(densities: map<string, Quantity>, q: Quantity, u: Unit, identifier: string)
    requires q.unit.dim != u.dim && identifier in densities
    ensures Convert(densities, q, u, Some(identifier)) == Failure(UnableToConvert)
        <==> (DimDiv(q.unit.dim, u.dim) != densities[identifier].unit.dim &&
              DimDiv(u.dim, q.unit.dim) != densities[identifier].unit.dim)
  {
  }

  /** Between different dimensionalities at most one bridging direction matches a given
      density, so the order of the divide and multiply tests never decides a result. */
  lemma BridgesExclusive(a: Dimensionality, b: Dimensionality, d: Dimensionality)
    requires a != b
    ensures !(DimDiv(a, b) == d && DimDiv(b, a) == d)
  {
  }

  /** Converting a successful result back to the input's unit with the same identifier
      gives the input back exactly (across dimensionalities the density must be non-zero, or
      the way back divides by zero). */
  lemma ConvertRoundTrip(densities: map<string, Quantity>, q: Quantity, u: Unit, identifier: Option<string>)
    requires Convert(densities, q, u, identifier).Success?
    requires q.unit.dim != u.dim ==> densities[identifier.value].magnitude != 0.0
    ensures Convert(densities, Convert(densities, q, u, identifier).value, q.unit, identifier) == Success(q)
  {
    var r := Convert(densities, q, u, identifier).value;
    if q.unit.dim == u.dim {
      ToRoundTrip(q, u);
    } else {
      var d := densities[identifier.value];
      BridgesExclusive(q.unit.dim, u.dim, d.unit.dim);
      if DimDiv(q.unit.dim, u.dim) == d.unit.dim {
        ToKeepsAmount(QuantityDiv(q, d), u);
        DivAmount(q, d);
        MulAmount(r, d);
        ToEquivalent(QuantityMul(r, d), q, q.unit);
        ToSelf(q);
      } else {
        ToKeepsAmount(QuantityMul(q, d), u);
        MulAmount(q, d);
        DivAmount(r, d);
        var back := QuantityDiv(r, d);
        assert BaseMagnitude(back) * BaseMagnitude(d) == BaseMagnitude(q) * BaseMagnitude(d);
        assert BaseMagnitude(d) != 0.0;
        ToEquivalent(back, q, q.unit);
        ToSelf(q);
      }
    }
  }

  /** A density written as `k` mass units per volume unit turns `a` volume units into
      exactly `a * k` mass units (the multiply branch). */
  lemma ConvertVolumeToMass(densities: map<string, Quantity>, identifier: string, a: real, k: real, volume: Unit, mass: Unit)
    requires volume.dim != mass.dim
    requires identifier in densities && densities[identifier] == Quantity(k, UnitDiv(mass, volume))
    ensures Convert(densities, Quantity(a, volume), mass, Some(identifier)) == Success(Quantity(a * k, mass))
  {
    var q, d := Quantity(a, volume), densities[identifier];
    BridgesExclusive(volume.dim, mass.dim, d.unit.dim);
    var x := QuantityMul(q, d);
    assert x.unit.scale == mass.scale;
    assert x.magnitude * x.unit.scale / mass.scale == a * k;
    assert Convert(densities, q, mass, Some(identifier)) == Success(To(x, mass));
    assert To(x, mass).magnitude == a * k;
    assert To(x, mass) == Quantity(a * k, mass);
  }

  /** The same density turns `a` mass units into exactly `a / k` volume units (the divide
      branch). */
  lemma ConvertMassToVolume(densities: map<string, Quantity>, identifier: string, a: real, k: real, mass: Unit, volume: Unit)
    requires volume.dim != mass.dim && k != 0.0
    requires identifier in densities && densities[identifier] == Quantity(k, UnitDiv(mass, volume))
    ensures Convert(densities, Quantity(a, mass), volume, Some(identifier)) == Success(Quantity(a / k, volume))
  {
    var q, d := Quantity(a, mass), densities[identifier];
    var x := QuantityDiv(q, d);
    assert x.unit.scale == volume.scale by {
      assert mass.scale / (mass.scale / volume.scale) == volume.scale;
    }
    assert x.magnitude * x.unit.scale / volume.scale == a / k;
    assert DimDiv(mass.dim, volume.dim) == d.unit.dim;
    assert Convert(densities, q, volume, Some(identifier)) == Success(To(x, volume));
    assert To(x, volume).magnitude == a / k;
    assert To(x, volume) == Quantity(a / k, volume);
  }

  /** A conversion consults only the entry of its own identifier: registries that agree on
      that entry convert alike. */
  lemma ConvertLocal(m1: map<string, Quantity>, m2: map<string, Quantity>, q: Quantity, u: Unit, identifier: Option<string>)
    requires identifier.Some? ==> (identifier.value in m1 <==> identifier.value in m2)
    requires identifier.Some? && identifier.value in m1 ==> m1[identifier.value] == m2[identifier.value]
    ensures Convert(m1, q, u, identifier) == Convert(m2, q, u, identifier)
  {
  }
}
