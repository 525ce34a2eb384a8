/**
 `DensityRegistry` of `src/jolly_recipe_manager/units.py`, the older registry: the first
 density registered for an item is kept and later ones are ignored without any check, and
 the conversion is the same chain as the newer `UnitHandler`'s.
 */
module JollyUnits {
  import opened Wrappers
  import opened Quantities
  import opened Conversion

  class DensityRegistry {
    var densities: map<string, Quantity>

    constructor ()
      ensures densities == map[]
    {
      densities := map[];
    }

    /** `add_density`: store `density` only if `item` is absent; never raises. */
    method AddDensity(item: string, density: Quantity)
      modifies this
      ensures item in old(densities) ==> densities == old(densities)
      ensures item !in old(densities) ==> densities == old(densities)[item := density]
    {
      if item !in densities {
        densities := densities[item := density];
      }
    }

    /** `do_conversion`: reads the registry and never changes it. */
    function DoConversion(q: Quantity, u: Unit, identifier: Option<string>): (r: Result<Quantity, ConversionError>)
      reads this
      ensures q.unit.dim == u.dim ==> r == Success(To(q, u))
      ensures r.Success? ==> r.value.unit == u
      ensures q.unit.dim != u.dim ==>
        (r == Failure(NoDensityKnown(identifier)) <==> identifier.None? || identifier.value !in densities)
    {
      Convert(densities, q, u, identifier)
    }
  }

  /** Registering an item twice keeps the first density, whatever the second one is. */
  method FirstWriteWins(item: string, first: Quantity, second: Quantity) returns (kept: Quantity, size: nat)
    ensures kept == first && size == 1
  {
    var reg := new DensityRegistry();
    reg.AddDensity(item, first);
    reg.AddDensity(item, second);
    kept := reg.densities[item];
    size := |reg.densities|;
  }

  /** The densities of the conversion tests: water at 240 g/cp, rice at 180 g/cp. */
  const FixtureDensities := map["water" := Quantity(240.0, GramPerCup), "rice" := Quantity(180.0, GramPerCup)]

  /** The registry of the conversion tests, filled through `add_density`. */
  method Fixture() returns (reg: DensityRegistry)
    ensures fresh(reg)
    ensures reg.densities == FixtureDensities
  {
    reg := new DensityRegistry();
    reg.AddDensity("water", Quantity(240.0, GramPerCup));
    reg.AddDensity("rice", Quantity(180.0, GramPerCup));
  }

  /** The successful conversions of the tests: 1 cp is 48 tsp with no identifier, 240 g
      with water, 180 g with rice; 180 g of rice is 1 cp. */
  method FixtureConversions() returns (
    teaspoons: Result<Quantity, ConversionError>, water: Result<Quantity, ConversionError>,
    rice: Result<Quantity, ConversionError>, cups: Result<Quantity, ConversionError>)
    ensures teaspoons == Success(Quantity(48.0, Teaspoon))
    ensures water == Success(Quantity(240.0, Gram))
    ensures rice == Success(Quantity(180.0, Gram))
    ensures cups == Success(Quantity(1.0, Cup))
  {
    var reg := Fixture();
    ScenarioScales();
    teaspoons := reg.DoConversion(Quantity(1.0, Cup), Teaspoon, None);
    water := reg.DoConversion(Quantity(1.0, Cup), Gram, Some("water"));
    ConvertVolumeToMass(reg.densities, "water", 1.0, 240.0, Cup, Gram);
    rice := reg.DoConversion(Quantity(1.0, Cup), Gram, Some("rice"));
    ConvertVolumeToMass(reg.densities, "rice", 1.0, 180.0, Cup, Gram);
    cups := reg.DoConversion(Quantity(180.0, Gram), Cup, Some("rice"));
    ConvertMassToVolume(reg.densities, "rice", 180.0, 180.0, Gram, Cup);
  }

  /** The failing conversions of the tests and the text each `InvalidConversion` carries. */
  method FixtureFailures() returns (
    noIdentifier: Result<Quantity, ConversionError>, unknown: Result<Quantity, ConversionError>,
    miles: Result<Quantity, ConversionError>)
    ensures noIdentifier == Failure(NoDensityKnown(None))
    ensures "No density known for 'None'" <= Message(noIdentifier.error)
    ensures unknown == Failure(NoDensityKnown(Some("unknown")))
    ensures "No density known for 'unknown'" <= Message(unknown.error)
    ensures miles == Failure(UnableToConvert) && Message(miles.error) == "Unable to convert"
  {
    var reg := Fixture();
    noIdentifier := reg.DoConversion(Quantity(1.0, Cup), Gram, None);
    unknown := reg.DoConversion(Quantity(1.0, Cup), Gram, Some("unknown"));
    miles := reg.DoConversion(Quantity(1.0, Cup), Mile, Some("rice"));
  }
}
