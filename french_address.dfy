/**
 * `FrenchAddress`: the library `Address` extended with a city code and an
 * old city code, and the normaliser `createFromArray` that builds one from a
 * loosely structured PHP array.
 */
module FrenchAddressModel {
  import opened Wrappers
  import opened PhpValues
  import opened Geocoder
  import opened AdminLevelFilter

  /** Everything a `FrenchAddress` holds: the parent `Address` fields plus the two codes. */
  datatype AddressFields = AddressFields(
    providedBy: string,
    adminLevels: AdminLevelCollection,
    coordinates: Option<Coordinates>,
    bounds: Option<Bounds>,
    streetNumber: Option<string>,
    streetName: Option<string>,
    postalCode: Option<string>,
    cityCode: Option<string>,
    oldCityCode: Option<string>,
    locality: Option<string>,
    subLocality: Option<string>,
    country: Option<Country>,
    timezone: Option<string>)

  /** Arguments `createCoordinates` can hand to `new Coordinates(float, float)`. */
  predicate CoordinatesArgs(latitude: Value, longitude: Value) {
    latitude.Null? || longitude.Null? || (latitude.Num? && longitude.Num?)
  }

  /** Arguments `createBounds` can hand to `new Bounds(float, float, float, float)`. */
  predicate BoundsArgs(south: Value, west: Value, north: Value, east: Value) {
    south.Null? || west.Null? || north.Null? || east.Null? ||
    (south.Num? && west.Num? && north.Num? && east.Num?)
  }

  class FrenchAddress {
    // Fields of the parent `Address`, which offers no way to change them.
    const providedBy: string
    const adminLevels: AdminLevelCollection
    const coordinates: Option<Coordinates>
    const bounds: Option<Bounds>
    const streetNumber: Option<string>
    const streetName: Option<string>
    const postalCode: Option<string>
    const locality: Option<string>
    const subLocality: Option<string>
    const country: Option<Country>
    const timezone: Option<string>
    // The two fields `FrenchAddress` adds; their setters change them in place.
    var cityCode: Option<string>
    var oldCityCode: Option<string>

    /** The address as a value. */
    function Fields(): AddressFields
      reads this
    {
      AddressFields(providedBy, adminLevels, coordinates, bounds, streetNumber, streetName,
                    postalCode, cityCode, oldCityCode, locality, subLocality, country, timezone)
    }

    /** Every parameter after the admin levels is optional and defaults to null. */
    constructor (providedBy: string, adminLevels: AdminLevelCollection,
                 coordinates: Option<Coordinates> := None, bounds: Option<Bounds> := None,
                 streetNumber: Option<string> := None, streetName: Option<string> := None,
                 postalCode: Option<string> := None, cityCode: Option<string> := None,
                 oldCityCode: Option<string> := None, locality: Option<string> := None,
                 subLocality: Option<string> := None, country: Option<Country> := None,
                 timezone: Option<string> := None)
      ensures Fields() == AddressFields(providedBy, adminLevels, coordinates, bounds,
                                        streetNumber, streetName, postalCode, cityCode,
                                        oldCityCode, locality, subLocality, country, timezone)
      ensures GetCityCode() == cityCode && GetOldCityCode() == oldCityCode
    {
      this.providedBy := providedBy;
      this.adminLevels := adminLevels;
      this.coordinates := coordinates;
      this.bounds := bounds;
      this.streetNumber := streetNumber;
      this.streetName := streetName;
      this.postalCode := postalCode;
      this.locality := locality;
      this.subLocality := subLocality;
      this.country := country;
      this.timezone := timezone;
      this.cityCode := cityCode;
      this.oldCityCode := oldCityCode;
    }

    function GetCityCode(): Option<string>
      reads this
    {
      cityCode
    }

    function GetOldCityCode(): Option<string>
      reads this
    {
      oldCityCode
    }

    /** Replaces the city code in place and returns the same object. */
    method SetCityCode(code: Option<string>) returns (self: FrenchAddress)
      modifies this`cityCode
      ensures self == this
      ensures GetCityCode() == code && GetOldCityCode() == old(GetOldCityCode())
      ensures Fields() == old(Fields()).(cityCode := code)
    {
      cityCode := code;
      self := this;
    }

    /** Replaces the old city code in place and returns the same object. */
    method SetOldCityCode(code: Option<string>) returns (self: FrenchAddress)
      modifies this`oldCityCode
      ensures self == this
      ensures GetOldCityCode() == code && GetCityCode() == old(GetCityCode())
      ensures Fields() == old(Fields()).(oldCityCode := code)
    {
      oldCityCode := code;
      self := this;
    }

    /** Coordinates only when both latitude and longitude are non-null. */
    static function CreateCoordinates(latitude: Value, longitude: Value): (r: Option<Coordinates>)
      requires CoordinatesArgs(latitude, longitude)
      ensures r.None? <==> latitude.Null? || longitude.Null?
      ensures r.Some? ==> r.value.latitude == latitude.n && r.value.longitude == longitude.n
    {
      if latitude.Null? || longitude.Null? then None
      else Some(Coordinates(latitude.n, longitude.n))
    }

    /** A country unless both name and code are null; either one alone suffices. */
    static function CreateCountry(name: Value, code: Value): (r: Option<Country>)
      requires NullableString(name) && NullableString(code)
      ensures r.None? <==> name.Null? && code.Null?
      ensures r.Some? ==> r.value.name == OptString(name) && r.value.code == OptString(code)
      ensures r.Some? ==> r.value.name.Some? || r.value.code.Some?
    {
      if name.Null? && code.Null? then None
      else Some(Country(OptString(name), OptString(code)))
    }

    /** Bounds only when all four sides are non-null. */
    static function CreateBounds(south: Value, west: Value, north: Value, east: Value): (r: Option<Bounds>)
      requires BoundsArgs(south, west, north, east)
      ensures r.None? <==> south.Null? || west.Null? || north.Null? || east.Null?
      ensures r.Some? ==> r.value.south == south.n && r.value.west == west.n &&
                          r.value.north == north.n && r.value.east == east.n
    {
      if south.Null? || west.Null? || north.Null? || east.Null? then None
      else Some(Bounds(south.n, west.n, north.n, east.n))
    }

    /**
     * The `foreach` over the raw admin levels in `createFromArray`: skips an
     * entry whose level is empty, names the rest by their name or else their
     * code, skips those whose name is then empty, and keeps the others in
     * order.
     */
    static method ReadAdminLevels(raw: Value) returns (adminLevels: seq<AdminLevel>)
      requires LevelsTyped(Items(raw))
      ensures adminLevels == KeptLevels(Items(raw))
    {
      var source := if raw.Arr? then raw.entries else [];
      ghost var items := Items(raw);
      adminLevels := [];
      var i := 0;
      while i < |source|
        invariant 0 <= i <= |source| == |items|
        invariant LevelsTyped(items[..i])
        invariant adminLevels == KeptLevels(items[..i])
      {
        var adminLevel := source[i].1;
        KeptLevelsStep(items, i);
        i := i + 1;
        if Empty(Lookup(adminLevel, "level")) {
          continue;
        }
        var name := Lookup(adminLevel, "name");
        if name.Null? {
          name := Lookup(adminLevel, "code");
        }
        if Empty(name) {
          continue;
        }
        adminLevels := adminLevels + [AdminLevel(Lookup(adminLevel, "level").n.i, name.s,
                                                 OptString(Lookup(adminLevel, "code")))];
      }
      assert items[..i] == items;
    }

    /**
     * Builds an address from a PHP array: overlays it on the defaults, keeps
     * the admin-level entries with a level and a name, and builds the optional
     * coordinates, bounds and country.
     */
    static method CreateFromArray(data: map<DataKey, Value>) returns (address: FrenchAddress)
      requires WellTyped(data)
      ensures fresh(address)
      ensures address.Fields() == FromArray(data)
    {
      var merged := Merge(data);
      var adminLevels := ReadAdminLevels(Field(merged, AdminLevelsKey));
      var collection: AdminLevelCollection := adminLevels;

      var bounds := Field(merged, BoundsKey);
      address := new FrenchAddress(
        Field(merged, ProvidedByKey).s,
        collection,
        CreateCoordinates(Field(merged, LatitudeKey), Field(merged, LongitudeKey)),
        CreateBounds(Lookup(bounds, "south"), Lookup(bounds, "west"),
                     Lookup(bounds, "north"), Lookup(bounds, "east")),
        OptString(Field(merged, StreetNumberKey)),
        OptString(Field(merged, StreetNameKey)),
        OptString(Field(merged, PostalCodeKey)),
        OptString(Field(merged, CityCodeKey)),
        OptString(Field(merged, OldCityCodeKey)),
        OptString(Field(merged, LocalityKey)),
        OptString(Field(merged, SubLocalityKey)),
        CreateCountry(Field(merged, CountryKey), Field(merged, CountryCodeKey)),
        OptString(Field(merged, TimezoneKey)));
    }
  }

  /**
   * The keys of the array `createFromArray` reads, one constructor per PHP
   * string key: `ProvidedByKey` is 'providedBy', `CityCodeKey` is 'cityCode',
   * and so on. A key outside this list is never read.
   */
  datatype DataKey =
    | ProvidedByKey | LatitudeKey | LongitudeKey | BoundsKey | StreetNumberKey | StreetNameKey
    | LocalityKey | PostalCodeKey | SubLocalityKey | AdminLevelsKey | CountryKey | CountryCodeKey
    | TimezoneKey | CityCodeKey | OldCityCodeKey

  /** Every key `createFromArray` reads. */
  const AllKeys: set<DataKey> := {
    ProvidedByKey, LatitudeKey, LongitudeKey, BoundsKey, StreetNumberKey, StreetNameKey,
    LocalityKey, PostalCodeKey, SubLocalityKey, AdminLevelsKey, CountryKey, CountryCodeKey,
    TimezoneKey, CityCodeKey, OldCityCodeKey}

  lemma AllKeysComplete()
    ensures forall key: DataKey :: key in AllKeys
  {
    forall key: DataKey ensures key in AllKeys {
      match key
      case ProvidedByKey =>
      case LatitudeKey =>
      case LongitudeKey =>
      case BoundsKey =>
      case StreetNumberKey =>
      case StreetNameKey =>
      case LocalityKey =>
      case PostalCodeKey =>
      case SubLocalityKey =>
      case AdminLevelsKey =>
      case CountryKey =>
      case CountryCodeKey =>
      case TimezoneKey =>
      case CityCodeKey =>
      case OldCityCodeKey =>
    }
  }

  /** The default array `createFromArray` overlays the caller's data on. */
  const Defaults: map<DataKey, Value> := map[
    ProvidedByKey := Str("n/a"),
    LatitudeKey := Null,
    LongitudeKey := Null,
    BoundsKey := Arr([(StrKey("south"), Null), (StrKey("west"), Null),
                     (StrKey("north"), Null), (StrKey("east"), Null)]),
    StreetNumberKey := Null,
    StreetNameKey := Null,
    LocalityKey := Null,
    PostalCodeKey := Null,
    SubLocalityKey := Null,
    AdminLevelsKey := Arr([]),
    CountryKey := Null,
    CountryCodeKey := Null,
    TimezoneKey := Null
  ]

  /** The default of every key, read off the literal above once. */
  lemma DefaultsFacts()
    ensures Field(Defaults, ProvidedByKey) == Str("n/a")
    ensures Field(Defaults, LatitudeKey) == Null && Field(Defaults, LongitudeKey) == Null
    ensures Field(Defaults, BoundsKey).Arr?
    ensures forall j :: 0 <= j < |Field(Defaults, BoundsKey).entries| ==> Field(Defaults, BoundsKey).entries[j].1 == Null
    ensures Field(Defaults, StreetNumberKey) == Null && Field(Defaults, StreetNameKey) == Null
    ensures Field(Defaults, LocalityKey) == Null && Field(Defaults, PostalCodeKey) == Null
    ensures Field(Defaults, SubLocalityKey) == Null && Field(Defaults, AdminLevelsKey) == Arr([])
    ensures Field(Defaults, CountryKey) == Null && Field(Defaults, CountryCodeKey) == Null
    ensures Field(Defaults, TimezoneKey) == Null
    ensures CityCodeKey !in Defaults && OldCityCodeKey !in Defaults
  {
  }

  /**
   * `array_merge($defaults, $data)` for string keys: every key the caller
   * supplies replaces the default value as a whole (the overlay is shallow),
   * every other default stays.
   */
  function Merge(data: map<DataKey, Value>): (m: map<DataKey, Value>)
    ensures m.Keys == Defaults.Keys + data.Keys
    ensures forall k :: k in data ==> m[k] == data[k]
    ensures forall k :: k in Defaults && k !in data ==> m[k] == Defaults[k]
  {
    Defaults + data
  }

  /** `$m[$key]`: the value under the key, null when it is missing. */
  function Field(m: map<DataKey, Value>, key: DataKey): Value {
    if key in m then m[key] else Null
  }

  /** After the overlay, every key whose default is null reads what the caller supplied. */
  lemma MergedNullDefaults(data: map<DataKey, Value>)
    ensures var m := Merge(data);
      && Field(m, LatitudeKey) == Field(data, LatitudeKey) && Field(m, LongitudeKey) == Field(data, LongitudeKey)
      && Field(m, StreetNumberKey) == Field(data, StreetNumberKey) && Field(m, StreetNameKey) == Field(data, StreetNameKey)
      && Field(m, LocalityKey) == Field(data, LocalityKey) && Field(m, PostalCodeKey) == Field(data, PostalCodeKey)
      && Field(m, SubLocalityKey) == Field(data, SubLocalityKey) && Field(m, TimezoneKey) == Field(data, TimezoneKey)
      && Field(m, CountryKey) == Field(data, CountryKey) && Field(m, CountryCodeKey) == Field(data, CountryCodeKey)
      && Field(m, CityCodeKey) == Field(data, CityCodeKey)
      && Field(m, OldCityCodeKey) == Field(data, OldCityCodeKey)
  {
    DefaultsFacts();
  }

  /** After the overlay, the nested defaults read like a missing caller value. */
  lemma MergedNestedDefaults(data: map<DataKey, Value>)
    ensures var m := Merge(data);
      && Items(Field(m, AdminLevelsKey)) == Items(Field(data, AdminLevelsKey))
      && Lookup(Field(m, BoundsKey), "south") == Lookup(Field(data, BoundsKey), "south")
      && Lookup(Field(m, BoundsKey), "west") == Lookup(Field(data, BoundsKey), "west")
      && Lookup(Field(m, BoundsKey), "north") == Lookup(Field(data, BoundsKey), "north")
      && Lookup(Field(m, BoundsKey), "east") == Lookup(Field(data, BoundsKey), "east")
  {
    DefaultsFacts();
    if BoundsKey !in data {
      var sides := Field(Defaults, BoundsKey).entries;
      FindAllNull(sides, "south");
      FindAllNull(sides, "west");
      FindAllNull(sides, "north");
      FindAllNull(sides, "east");
    }
  }

  /**
   * What the parameter types of the constructors `createFromArray` calls
   * accept from the overlaid array: a string provider, and what
   * `StringsTyped` and `ObjectsTyped` ask of the other keys.
   */
  predicate WellTyped(data: map<DataKey, Value>) {
    var m := Merge(data);
    Field(m, ProvidedByKey).Str? && StringsTyped(m) && ObjectsTyped(m)
  }

  /** Every string field other than the provider is a string or null. */
  predicate StringsTyped(m: map<DataKey, Value>) {
    && NullableString(Field(m, StreetNumberKey))
    && NullableString(Field(m, StreetNameKey))
    && NullableString(Field(m, PostalCodeKey))
    && NullableString(Field(m, CityCodeKey))
    && NullableString(Field(m, OldCityCodeKey))
    && NullableString(Field(m, LocalityKey))
    && NullableString(Field(m, SubLocalityKey))
    && NullableString(Field(m, CountryKey))
    && NullableString(Field(m, CountryCodeKey))
    && NullableString(Field(m, TimezoneKey))
  }

  /**
   * Numbers for coordinates and bounds that get built, well-typed kept admin
   * levels with distinct levels, and a `bounds` that is not a string (which
   * PHP cannot index by a name).
   */
  predicate ObjectsTyped(m: map<DataKey, Value>) {
    && CoordinatesArgs(Field(m, LatitudeKey), Field(m, LongitudeKey))
    && !Field(m, BoundsKey).Str?
    && BoundsArgs(Lookup(Field(m, BoundsKey), "south"), Lookup(Field(m, BoundsKey), "west"),
                  Lookup(Field(m, BoundsKey), "north"), Lookup(Field(m, BoundsKey), "east"))
    && LevelsTyped(Items(Field(m, AdminLevelsKey)))
    && DistinctLevels(KeptLevels(Items(Field(m, AdminLevelsKey))))
  }

  /**
   * `WellTyped` read on the caller's array: what the caller must supply, key
   * by key, for the constructors `createFromArray` calls to accept it. The
   * defaults themselves are all acceptable.
   */
  lemma WellTypedOnCallerData(data: map<DataKey, Value>)
    ensures WellTyped(data) <==>
      && (ProvidedByKey in data ==> data[ProvidedByKey].Str?)
      && StringsTyped(data)
      && ObjectsTyped(data)
  {
    DefaultsFacts();
    var m := Merge(data);
    assert StringsTyped(m) <==> StringsTyped(data) by {
      MergedNullDefaults(data);
    }
    assert ObjectsTyped(m) <==> ObjectsTyped(data) by {
      MergedNullDefaults(data);
      MergedNestedDefaults(data);
    }
  }

  /** The address `createFromArray` builds from `data`. */
  function FromArray(data: map<DataKey, Value>): AddressFields
    requires WellTyped(data)
  {
    var m := Merge(data);
    var bounds := Field(m, BoundsKey);
    AddressFields(
      Field(m, ProvidedByKey).s,
      KeptLevels(Items(Field(m, AdminLevelsKey))),
      FrenchAddress.CreateCoordinates(Field(m, LatitudeKey), Field(m, LongitudeKey)),
      FrenchAddress.CreateBounds(Lookup(bounds, "south"), Lookup(bounds, "west"),
                                 Lookup(bounds, "north"), Lookup(bounds, "east")),
      OptString(Field(m, StreetNumberKey)),
      OptString(Field(m, StreetNameKey)),
      OptString(Field(m, PostalCodeKey)),
      OptString(Field(m, CityCodeKey)),
      OptString(Field(m, OldCityCodeKey)),
      OptString(Field(m, LocalityKey)),
      OptString(Field(m, SubLocalityKey)),
      FrenchAddress.CreateCountry(Field(m, CountryKey), Field(m, CountryCodeKey)),
      OptString(Field(m, TimezoneKey)))
  }

  /**
   * The scalar fields of the result, in terms of what the caller supplied: a
   * supplied value wins over the default, a missing one reads as the default
   * ("n/a" for the provider, null for every other field).
   */
  lemma FromArrayScalars(data: map<DataKey, Value>)
    requires WellTyped(data)
    ensures var r := FromArray(data);
      && Str(r.providedBy) == (if ProvidedByKey in data then data[ProvidedByKey] else Str("n/a"))
      && Field(data, StreetNumberKey) == StrOrNull(r.streetNumber)
      && Field(data, StreetNameKey) == StrOrNull(r.streetName)
      && Field(data, PostalCodeKey) == StrOrNull(r.postalCode)
      && Field(data, CityCodeKey) == StrOrNull(r.cityCode)
      && Field(data, OldCityCodeKey) == StrOrNull(r.oldCityCode)
      && Field(data, LocalityKey) == StrOrNull(r.locality)
      && Field(data, SubLocalityKey) == StrOrNull(r.subLocality)
      && Field(data, TimezoneKey) == StrOrNull(r.timezone)
  {
    DefaultsFacts();
    MergedNullDefaults(data);
  }

  /**
   * The admin levels of the result are the ones kept from the caller's
   * `adminLevels` list; a missing list reads as the empty default.
   */
  lemma FromArrayLevels(data: map<DataKey, Value>)
    requires WellTyped(data)
    ensures LevelsTyped(Items(Field(data, AdminLevelsKey)))
    ensures FromArray(data).adminLevels == KeptLevels(Items(Field(data, AdminLevelsKey)))
  {
    DefaultsFacts();
    MergedNestedDefaults(data);
  }

  /**
   * The optional objects of the result, in terms of what the caller supplied:
   * coordinates only from two non-null values, bounds only from a caller
   * `bounds` array holding all four sides (the shallow overlay drops the
   * default sides), a country from a non-null name or code.
   */
  lemma FromArrayOptionals(data: map<DataKey, Value>)
    requires WellTyped(data)
    ensures var r := FromArray(data);
      && (r.coordinates.None? <==> Field(data, LatitudeKey).Null? || Field(data, LongitudeKey).Null?)
      && (r.coordinates.Some? ==>
            && Field(data, LatitudeKey) == Num(r.coordinates.value.latitude)
            && Field(data, LongitudeKey) == Num(r.coordinates.value.longitude))
      && (r.bounds.Some? ==> BoundsKey in data)
      && (var b := Field(data, BoundsKey);
          && (r.bounds.None? <==>
                (Lookup(b, "south").Null? || Lookup(b, "west").Null? ||
                 Lookup(b, "north").Null? || Lookup(b, "east").Null?))
          && (r.bounds.Some? ==>
                && Lookup(b, "south") == Num(r.bounds.value.south)
                && Lookup(b, "west") == Num(r.bounds.value.west)
                && Lookup(b, "north") == Num(r.bounds.value.north)
                && Lookup(b, "east") == Num(r.bounds.value.east)))
      && (r.country.None? <==> Field(data, CountryKey).Null? && Field(data, CountryCodeKey).Null?)
      && (r.country.Some? ==>
            && Field(data, CountryKey) == StrOrNull(r.country.value.name)
            && Field(data, CountryCodeKey) == StrOrNull(r.country.value.code))
  {
    DefaultsFacts();
    MergedNullDefaults(data);
    MergedNestedDefaults(data);
  }
}
