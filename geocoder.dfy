/**
 * The library value objects `FrenchAddress` builds. Their classes belong to
 * the geocoder library and are treated here as plain records holding the
 * values they are given.
 */
module Geocoder {
  import opened Wrappers
  import opened PhpValues

  /** `AdminLevel(int $level, string $name, ?string $code)`. */
  datatype AdminLevel = AdminLevel(level: int, name: string, code: Option<string>)

  /** No two administrative levels share a level number. */
  predicate DistinctLevels(levels: seq<AdminLevel>) {
    forall i, j :: 0 <= i < j < |levels| ==> levels[i].level != levels[j].level
  }

  /** `AdminLevelCollection`: an ordered list of levels that rejects a duplicate level. */
  type AdminLevelCollection = levels: seq<AdminLevel> | DistinctLevels(levels)

  /** `Coordinates(float $latitude, float $longitude)`. */
  datatype Coordinates = Coordinates(latitude: Number, longitude: Number)

  /** `Bounds(float $south, float $west, float $north, float $east)`. */
  datatype Bounds = Bounds(south: Number, west: Number, north: Number, east: Number)

  /** `Country(?string $name, ?string $code)`. */
  datatype Country = Country(name: Option<string>, code: Option<string>)
}
