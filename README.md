# FrenchAddress (Addok geocoder provider) in Dafny

A model of `Geocoder\Provider\Addok\Model\FrenchAddress`, the address record
of the Addok provider. It extends the geocoder library's `Address` with two
French fields, a city code and an old city code. It also provides
`createFromArray`, which turns a loosely structured PHP array into an address.

The model has six modules:

- `PhpValues` (`php_values.dfy`) holds the PHP values the normaliser sees:
  null, integers and floats, strings, and ordered arrays. It also holds the
  three operations applied to them: `empty()`, reading `$v['key']` and
  `foreach`.
- `Geocoder` (`geocoder.dfy`) holds the library value objects as plain
  records: `AdminLevel`, `Coordinates`, `Bounds`, `Country`. The
  `AdminLevelCollection` is a sequence with distinct levels.
- `AdminLevelFilter` (`admin_level_filter.dfy`) holds the specification of
  the admin-level `foreach`: which raw entries become `AdminLevel`s.
  `KeptLevels` is proved to be an order-preserving filter with an exact
  membership characterisation.
- `FrenchAddressModel` (`french_address.dfy`) holds the class
  `FrenchAddress`, which has these parts:
  - The parent fields are immutable.
  - `cityCode` and `oldCityCode` are mutable fields with in-place setters.
  - There are three pure `create*` helpers.
  - `CreateFromArray` overlays the defaults and runs the admin-level loop in
    `ReadAdminLevels`. It is proved to build exactly `FromArray(data)`.
    The lemmas `FromArray*` then describe that address in terms of what the
    caller supplied.
- `FrenchAddressProperties` (`french_address_properties.dfy`) covers
  `createFromArray([])`, the shallow overlay of `bounds` and two small
  admin-level examples. Its main result is a round trip: every address whose
  admin levels have a non-zero level and a non-empty name, and whose country
  (if any) has a name or a code, is rebuilt exactly from the array that
  describes it. Conversely, every address `createFromArray` builds has that
  form.

Three facts about the code shape the model:

- The country of an address comes only from the `country` and
  `countryCode` entries of the array (`createCountry`).
- `setCityCode` and `setOldCityCode` change the object in place and return
  `$this`.
- The only fields `FrenchAddress` adds are `cityCode` and `oldCityCode`;
  there is no old-city name field.

The array given to `createFromArray` is a map from the keys the method reads
(`DataKey`) to PHP values. PHP's `array_merge($defaults, $data)` is map union
with the caller's value winning, replacing a nested array as a whole. The
declared parameter types of the constructors `createFromArray` calls (a
string provider, `?string` fields, an `int` level, numbers for coordinates
and bounds) are the precondition `WellTyped`. On any other input PHP either
throws a `TypeError` or coerces the value (the file does not declare strict
types, and `createCoordinates` and `createBounds` declare no parameter
types); the model excludes both. `WellTypedOnCallerData` restates that condition key by
key on the caller's own array.

## Model

| member | source | states |
|---|---|---|
| `FrenchAddressModel.FrenchAddress.constructor` | Model/FrenchAddress.php:40-58 | the new address holds exactly the thirteen given values, the eleven optional ones defaulting to null; `GetCityCode` and `GetOldCityCode` return the two codes as given |
| `FrenchAddressModel.FrenchAddress.SetCityCode` | Model/FrenchAddress.php:82-87 | changes only `cityCode`: `GetCityCode()` returns the new code, the old city code and every other field are unchanged, and the same object is returned |
| `FrenchAddressModel.FrenchAddress.SetOldCityCode` | Model/FrenchAddress.php:94-99 | the mirror image: changes only `oldCityCode` and returns the same object |
| `FrenchAddressModel.FrenchAddress.CreateCoordinates` | Model/FrenchAddress.php:178-185 | no coordinates iff latitude or longitude is null; otherwise the coordinates carry exactly those two numbers |
| `FrenchAddressModel.FrenchAddress.CreateCountry` | Model/FrenchAddress.php:193-200 | no country iff both name and code are null; otherwise the country carries exactly the given name and code, at least one of them present |
| `FrenchAddressModel.FrenchAddress.CreateBounds` | Model/FrenchAddress.php:209-216 | no bounds iff any of the four sides is null; otherwise the bounds echo south, west, north and east in that order |
| `FrenchAddressModel.FrenchAddress.ReadAdminLevels` | Model/FrenchAddress.php:133-145 | the loop with its `continue` skips collects exactly `KeptLevels` of the entries it visits |
| `FrenchAddressModel.FrenchAddress.CreateFromArray` | Model/FrenchAddress.php:108-170 | returns a fresh address equal to `FromArray(data)`, the address the lemmas below characterise |
| `FrenchAddressModel.Merge` | Model/FrenchAddress.php:110-131 | the overlay has the keys of the defaults and of the caller; a caller value wins as a whole, and every other key keeps its default |
| `FrenchAddressModel.MergedNullDefaults` | Model/FrenchAddress.php:110-131 | after the overlay, every key whose default is null, and both codes, read what the caller supplied (null when missing) |
| `FrenchAddressModel.MergedNestedDefaults` | Model/FrenchAddress.php:114-131 | the default `bounds` with null sides and the default empty `adminLevels` read like a missing caller value |
| `FrenchAddressModel.WellTypedOnCallerData` | Model/FrenchAddress.php:147-169 | the input is acceptable iff the caller's own array is: a supplied provider is a string, the other string fields are strings or null, coordinates and bounds that get built are numbers, and the kept admin levels are well typed with distinct levels |
| `FrenchAddressModel.FromArrayScalars` | Model/FrenchAddress.php:147-169 | a supplied provider passes through unchanged and a missing one gives "n/a"; each string field, both codes included, is the caller's value or null when missing |
| `FrenchAddressModel.FromArrayLevels` | Model/FrenchAddress.php:133-149 | the address's admin levels are the kept levels of the caller's `adminLevels` list, none when it is missing |
| `FrenchAddressModel.FromArrayOptionals` | Model/FrenchAddress.php:150-167 | coordinates are absent iff latitude or longitude is null, and echo them otherwise; bounds need a caller `bounds` array with all four sides, and echo them; a country is absent iff both country and countryCode are null, and echoes them otherwise |
| `AdminLevelFilter.KeptLevels` | Model/FrenchAddress.php:133-145 | the kept levels never outnumber the entries |
| `AdminLevelFilter.KeptLevelsAppend` | Model/FrenchAddress.php:134-145 | entries are judged one by one: filtering a concatenation concatenates the filtered parts |
| `AdminLevelFilter.KeptLevelsStep` | Model/FrenchAddress.php:134-145 | one loop iteration adds the visited entry's level exactly when that entry is kept |
| `AdminLevelFilter.KeptLevelsMembership` | Model/FrenchAddress.php:135-144 | a level is in the result iff some entry has a non-empty level and a non-empty resolved name (name, else code) and builds that level with the entry's code |
| `AdminLevelFilter.KeptLevelsOrder` | Model/FrenchAddress.php:133-145 | the result is order-preserving: of two kept entries, the earlier one's level comes first |
| `AdminLevelFilter.EmptyNameShadowsCode` | Model/FrenchAddress.php:139-142 | an entry whose name is present but empty ("" or "0") is dropped even when it has a code |
| `FrenchAddressProperties.EmptyArrayDefaults` | Model/FrenchAddress.php:110-169 | `createFromArray([])` is accepted and gives provider "n/a", no admin levels, no coordinates, bounds or country, and every string field null, both codes included |
| `FrenchAddressProperties.PartialBoundsGiveNone` | Model/FrenchAddress.php:131-159 | a caller `bounds` array that lacks any one side gives no bounds; the default sides are not filled in |
| `FrenchAddressProperties.LevelsOnlyBuilds` | Model/FrenchAddress.php:133-149 | an array holding only admin levels is accepted when its kept levels are well typed and distinct, and the address holds exactly those levels |
| `FrenchAddressProperties.EntryWithoutLevelDropped` | Model/FrenchAddress.php:134-144 | `[{level: 1, name: "Île-de-France"}, {code: "75"}]` gives the single level (1, "Île-de-France", no code) |
| `FrenchAddressProperties.NameFallsBackToCode` | Model/FrenchAddress.php:139-144 | `[{level: 2, code: "75"}]` gives the level (2, "75", code "75") |
| `FrenchAddressProperties.KeptLevelEntries` | Model/FrenchAddress.php:133-145 | the raw entries describing levels with a non-zero level and a name other than "" and "0" are all kept and rebuild those levels exactly |
| `FrenchAddressProperties.BuiltIsNormal` | Model/FrenchAddress.php:133-167 | every address `createFromArray` builds has admin levels with a non-zero level and a name other than "" and "0", and a country only with a name or a code |
| `FrenchAddressProperties.DescribeRoundTrip` | Model/FrenchAddress.php:108-170 | `createFromArray` loses nothing: for every address whose admin levels have a non-zero level and a non-empty name, and whose country has a name or a code, the array describing it is accepted and builds that same address |

## Left out

- The library classes `Address`, `AdminLevel`, `AdminLevelCollection`, `Coordinates`, `Bounds` and `Country` are plain records here. Any validation inside them is not part of this model, such as range checks on latitude and longitude or a limit on admin-level numbers. The one rule kept is that an `AdminLevelCollection` has distinct levels; it is a subset type, and `WellTyped` asks for it.
- Floating-point values are opaque bit patterns. Coordinates and bounds are only null-checked and passed on. `empty()` only needs to know whether a float is zero, which the model decides on the bit pattern.
- PHP's scalar type coercion is not modelled. A string or float `level`, an integer where a `?string` is declared and a boolean anywhere are outside the value space or excluded by `WellTyped`. In those cases the model asks for the exact declared type.
- Booleans, objects and resources have no place in `PhpValues.Value`; the normaliser only null-checks or `empty()`-checks what it reads.
- The top-level array is keyed by the fifteen keys `createFromArray` reads. Keys it never reads, and integer keys (which `array_merge` renumbers), do not influence the result and are not represented.
- `bounds` given as a string is excluded by `WellTyped`. PHP's string-offset reading of `$data['bounds']['south']` depends on the PHP version.
- The undefined-index notices PHP raises for a missing `cityCode` or `oldCityCode` are not modelled; only the resulting null is.
- `new static` late binding is modelled as `new FrenchAddress`; subclasses are not part of this model.
- The getters `GetCityCode` and `GetOldCityCode` have no contract of their own. What they return is stated by the constructor and the setters.
- `ReadAdminLevels` is the `foreach` of `createFromArray` in its own method, with the same order, skips and appends. `CreateFromArray` calls it where the source runs the loop inline.
