# Density-bridged unit conversion for stray_recipe_manager

This project models the unit-conversion core of the recipe manager: a registry that maps an
ingredient identifier (such as `"rice"`) to its density, and a conversion that turns a
quantity into a requested unit. When the two units measure the same thing the conversion is
direct; otherwise it bridges the gap by dividing or multiplying by the identifier's density
(mass to volume, volume to mass). The core exists in two versions, and both are modelled:

- `UnitHandler` (`src/stray_recipe_manager/units.py`), module `StrayUnits`. Re-registering an
  identifier checks the new density against the stored one with a relative tolerance and
  raises `InvalidData` when they disagree. It also has dimensionality guards on parsed
  quantities and units, `get_density` and `clear_densities`.
- `DensityRegistry` (`src/jolly_recipe_manager/units.py`), module `JollyUnits`. It is the
  older registry: the first density registered wins, and later ones are dropped silently.

Both `do_conversion`s are the same chain of tests. It is defined once, as
`Conversion.Convert` over the registry's map, and each class's `DoConversion` reads its own
map through it. Module `Quantities` is an abstract stand-in for the pint library:
- A dimensionality is a vector of base-dimension exponents. Dividing two dimensionalities
  subtracts their exponents.
- A unit is a positive scale to the SI base unit, together with a dimensionality.
- A quantity is an exact `real` magnitude in a unit.
- `To` is `Quantity.to`. It is defined only between units of equal dimensionality.

Python exceptions become `Failure`/`Fail` values (`Wrappers.Result`, `Wrappers.Outcome`):
- `InvalidConversion` and `InvalidData` each become an error datatype whose variants name
  the cause.
- The parse guards and `add_density` return `Outcome`/`Result` values instead of raising.
- The text of `InvalidConversion` is `Conversion.Message`.

Behaviours of the code that are easy to miss, modelled as written:
- `add_density` never checks that a density has a mass/volume dimensionality. Only the TOML
  loader's `parse_quantity(v, "[mass]/[length]**3")` guard does.
- Re-registering with a different dimensionality fails inside pint's subtraction
  (`DimensionalityError`). It does not fail with a dedicated error kind.
  `StrayUnits.DataError.IncompatibleDimensions` stands for that pint failure.
- The divide branch (`in / density`) is the mass-to-volume direction, and the multiply
  branch is volume-to-mass: `180 g -> cp` divides and `1 cp -> g` multiplies. That is how the
  tests exercise them.
- Dividing by a density of magnitude zero raises Python's `ZeroDivisionError` inside pint.
  This is `Conversion.ConversionError.DivisionByZero`, which is not an `InvalidConversion`.
- The tolerance test `abs(curr - new) > tolerance * curr` is kept exactly as written. It is
  asymmetric and measured against the stored value. With a negative stored magnitude and a
  positive tolerance, even the identical value is rejected
  (`StrayUnits.ReaddIdenticalNegativeFails`).

## Model

| member | source | states |
|---|---|---|
| Conversion.Convert | src/stray_recipe_manager/units.py:69-95 | A successful result is expressed in `out_unit`, so it has `out_unit`'s dimensionality. A missing-density failure carries the identifier it was called with. |
| Conversion.Message | src/stray_recipe_manager/units.py:80-83 | The `InvalidConversion` texts (also jolly units.py:35-39 and 51): a missing density reads `No density known for '<identifier>'`, with `None` for an absent identifier, and the bridging failure reads `Unable to convert`. |
| Conversion.ConvertSameDimension | src/stray_recipe_manager/units.py:76-77 | When the dimensionalities are equal, the result is `in_quantity.to(out_unit)` for every registry and identifier (including none), and it is the same amount. |
| Conversion.ConvertNoDensity | src/stray_recipe_manager/units.py:78-83 | Across dimensionalities, the result is `NoDensityKnown(identifier)` exactly when the identifier is None or not registered. |
| Conversion.ConvertDivides | src/stray_recipe_manager/units.py:84-89 | When `dim(in)/dim(out)` is the density's dimensionality, a zero density fails with division by zero. Otherwise the result succeeds and, multiplied by the density, gives back the input amount. |
| Conversion.ConvertMultiplies | src/stray_recipe_manager/units.py:90-94 | When `dim(out)/dim(in)` matches the density, the divide test cannot also match, and the result succeeds with the input amount times the density's. |
| Conversion.ConvertUnable | src/stray_recipe_manager/units.py:85-95 | With a registered density, "Unable to convert" happens exactly when neither bridging direction matches the density's dimensionality. |
| Conversion.BridgesExclusive | src/stray_recipe_manager/units.py:85-94 | Between different dimensionalities, at most one bridging test can hold, so testing divide before multiply never changes a result. |
| Conversion.ConvertRoundTrip | src/stray_recipe_manager/units.py:76-94 | Converting a result back to the input's unit with the same identifier gives the input exactly. Across dimensionalities this needs a non-zero density. |
| Conversion.ConvertVolumeToMass | src/jolly_recipe_manager/units.py:46-50 | A density of `k` mass units per volume unit turns `a` volume units into exactly `a * k` mass units. |
| Conversion.ConvertMassToVolume | src/jolly_recipe_manager/units.py:41-45 | A non-zero density of `k` mass units per volume unit turns `a` mass units into exactly `a / k` volume units. |
| Conversion.ConvertLocal | src/stray_recipe_manager/units.py:79-84 | A conversion depends only on the registry entry for its own identifier. Registries that agree on that entry give the same result. |
| StrayUnits.Reregister | src/stray_recipe_manager/units.py:53-59 | Re-registering an already stored item fails with pint's dimensionality error exactly when the dimensionalities differ. The `InvalidData` it raises names the item, the new density and the stored one. It never reports a parse-guard error. |
| StrayUnits.ReregisterByAmount | src/stray_recipe_manager/units.py:55-59 | For equal dimensionalities, re-registration raises `InvalidData` exactly when `abs(curr - new) > tolerance * curr` on the amounts, whatever units the densities are written in. Otherwise it passes. |
| StrayUnits.ReaddIdenticalPasses | src/stray_recipe_manager/units.py:55 | Re-adding the stored value never raises when the stored magnitude and the tolerance are non-negative. |
| StrayUnits.ReaddIdenticalNegativeFails | src/stray_recipe_manager/units.py:55-59 | The test as written: with a negative stored magnitude and a positive tolerance, re-adding the identical value raises. |
| StrayUnits.NearDuplicate | src/stray_recipe_manager/units.py:53-59 | For a positive stored density `d`, re-adding `d * (1 + eps)` passes exactly when `abs(eps) <= tolerance`, and raises `InvalidData` exactly when `abs(eps) > tolerance`. |
| StrayUnits.LoadedDensityBridges | src/stray_recipe_manager/units.py:85-94 | A `[mass]/[length]**3` density converts volume to mass by multiplying and non-zero mass to volume by dividing. Volume to length is "Unable to convert". |
| StrayUnits.UnitHandler.constructor | src/stray_recipe_manager/units.py:18-22 | A new handler has no densities and keeps the given tolerance, which defaults to 0.001. |
| StrayUnits.UnitHandler.ParseQuantity | src/stray_recipe_manager/units.py:24-33 | The parsed quantity is returned unchanged exactly when no dimensionality is required or it has the required one. Otherwise `InvalidData` names the required and actual dimensionalities. |
| StrayUnits.UnitHandler.ParseUnit | src/stray_recipe_manager/units.py:35-47 | The same guard for a parsed unit. |
| StrayUnits.UnitHandler.AddDensity | src/stray_recipe_manager/units.py:49-59 | An absent item is stored and the call passes. A present item is never overwritten, and the outcome is `Reregister`'s. No other entry changes. |
| StrayUnits.UnitHandler.GetDensity | src/stray_recipe_manager/units.py:61-63 | Returns the stored density exactly when the item is registered, and None otherwise. It reads the registry without changing it. |
| StrayUnits.UnitHandler.ClearDensities | src/stray_recipe_manager/units.py:65-67 | Afterwards the registry is empty. |
| StrayUnits.UnitHandler.DoConversion | src/stray_recipe_manager/units.py:69-95 | Same-dimension conversions are `to(out_unit)`. Successes are in `out_unit`. Across dimensionalities, the no-density failure happens exactly when the identifier is None or unregistered. The registry is only read. |
| StrayUnits.RegisterThenGet | src/stray_recipe_manager/units.py:49-63 | On a fresh handler, registering `d` for `x` passes, and then `get_density(x)` returns exactly `d`. |
| StrayUnits.RegisterTwice | src/stray_recipe_manager/units.py:53-59 | A second registration of the same item keeps the first value, and it raises or passes exactly as `Reregister` says. |
| StrayUnits.ClearThenGet | src/stray_recipe_manager/units.py:65-67 | On a handler with the default tolerance, a registered item looks up as None after `clear_densities`. |
| JollyUnits.DensityRegistry.constructor | src/jolly_recipe_manager/units.py:14-17 | A new registry is empty. |
| JollyUnits.DensityRegistry.AddDensity | src/jolly_recipe_manager/units.py:19-22 | Stores the density only if the item is absent. Otherwise nothing changes and nothing is raised. |
| JollyUnits.DensityRegistry.DoConversion | src/jolly_recipe_manager/units.py:24-51 | The same guarantees as the newer handler's `DoConversion`, over this registry's map. |
| JollyUnits.FirstWriteWins | src/jolly_recipe_manager/units.py:19-22 | Registering an item twice leaves one entry holding the first density. |
| JollyUnits.Fixture | tests/test_unit_conversion.py:7-13 | The test registry holds exactly water at 240 g/cp and rice at 180 g/cp. |
| JollyUnits.FixtureConversions | tests/test_unit_conversion.py:16-34 | 1 cp is 48 tsp with no identifier, 240 g with water and 180 g with rice, and 180 g of rice is 1 cp, all exactly. |
| JollyUnits.FixtureFailures | tests/test_unit_conversion.py:37-56 | 1 cp to grams with None or `"unknown"` fails with no density known, and the message contains `No density known for 'None'` or `No density known for 'unknown'`. 1 cp to miles with rice is "Unable to convert". |
| Quantities.ScenarioScales | tests/test_unit_conversion.py:19-22 | The unit constants used: a cup is 48 teaspoons, and a cup of `g/cp` is a gram. |

## Left out

- pint itself is not modelled. This covers string parsing (`parse_expression`, `parse_units`, `get_dimensionality`), the unit definitions and the process-wide `default_unit_registry`. `ParseQuantity` and `ParseUnit` receive the already-parsed value and the required dimensionality. The handlers carry no `unit_registry` field.
- Only multiplicative units are modelled. Offset units such as degrees Celsius are left out. Only the seven SI base dimensions exist, not pint's extra ones such as currency.
- Magnitudes are exact reals, so float rounding is not modelled. The tests compare with pint's `==`; the model proves exact equality, which is stronger.
- Only the unit scales the tests use are given: cup, teaspoon, gram, mile and `g/cp`.
- The tolerance is a constant of the handler, because the source never reassigns it after construction.
- Enumerating the registry is not a separate operation. `write_densities_to_toml_file` reads the `densities` field directly, and here that field is public.
- Several files are not part of this model:
  - `src/stray_recipe_manager/storage.py`: TOML I/O whose only logic feeds each pair into `add_density`.
  - `src/stray_recipe_manager/formatter.py`: Markdown and HTML rendering.
  - `src/stray_recipe_manager/server.py`: web serving, templates and QR codes.
  - `src/stray_recipe_manager/cli.py`: argument handling.
  - `src/stray_recipe_manager/loader.py`: an empty stub.
  - `src/stray_recipe_manager/recipe.py`: records with no behaviour.
- Message texts are modelled for `InvalidConversion` only. The text of `InvalidData` and pint's exception texts are not modelled.
