/**
 * Properties of `createFromArray` that relate several calls or whole
 * addresses: what the empty array gives, and that every address with
 * well-formed admin levels is what `createFromArray` builds from the array
 * describing it.
 */
module FrenchAddressProperties {
  import opened Wrappers
  import opened PhpValues
  import opened Geocoder
  import opened AdminLevelFilter
  import opened FrenchAddressModel

  /**
   * `createFromArray([])`: provider "n/a", no admin levels, no coordinates,
   * bounds or country, and every string field null, the two codes included.
   */
  lemma EmptyArrayDefaults()
    ensures WellTyped(map[])
    ensures FromArray(map[]) ==
              AddressFields("n/a", [], None, None, None, None, None, None, None, None, None, None, None)
  {
    DefaultsFacts();
    var r := FromArray(map[]);
    FromArrayScalars(map[]);
    FromArrayLevels(map[]);
    FromArrayOptionals(map[]);
  }

  /**
   * A caller `bounds` array missing any side gives no bounds: the overlay
   * replaces the default `bounds` array as a whole, so the side is not filled
   * in from it.
   */
  lemma PartialBoundsGiveNone(data: map<DataKey, Value>, side: string)
    requires WellTyped(data)
    requires BoundsKey in data && (side == "south" || side == "west" || side == "north" || side == "east")
    requires Lookup(data[BoundsKey], side) == Null
    ensures FromArray(data).bounds == None
  {
    FromArrayOptionals(data);
  }

  /** The array that holds only the given admin-level entries. */
  function LevelsOnly(entries: seq<Value>): map<DataKey, Value> {
    map[AdminLevelsKey := List(entries)]
  }

  /** An array holding only admin levels is accepted when its kept levels are, and builds them. */
  lemma LevelsOnlyBuilds(entries: seq<Value>)
    requires LevelsTyped(entries) && DistinctLevels(KeptLevels(entries))
    ensures WellTyped(LevelsOnly(entries))
    ensures FromArray(LevelsOnly(entries)).adminLevels == KeptLevels(entries)
  {
    AdminLevelsOnlyBuilds(List(entries));
  }

  /** `LevelsOnlyBuilds` for any `adminLevels` value, the list being left abstract. */
  lemma AdminLevelsOnlyBuilds(levels: Value)
    requires LevelsTyped(Items(levels)) && DistinctLevels(KeptLevels(Items(levels)))
    ensures WellTyped(map[AdminLevelsKey := levels])
    ensures FromArray(map[AdminLevelsKey := levels]).adminLevels == KeptLevels(Items(levels))
  {
    AdminLevelsOnlyTyped(levels);
    WellTypedOnCallerData(map[AdminLevelsKey := levels]);
    FromArrayLevels(map[AdminLevelsKey := levels]);
  }

  /** Apart from the admin levels, an array holding nothing but them reads null everywhere. */
  lemma AdminLevelsOnlyTyped(levels: Value)
    requires LevelsTyped(Items(levels)) && DistinctLevels(KeptLevels(Items(levels)))
    ensures StringsTyped(map[AdminLevelsKey := levels]) && ObjectsTyped(map[AdminLevelsKey := levels])
  {
  }

  /**
   * `[{level: 1, name: "Île-de-France"}, {code: "75"}]`: the second entry has
   * no level and is dropped, so exactly one admin level is built.
   */
  lemma EntryWithoutLevelDropped()
    ensures var region := Arr([(StrKey("level"), Num(IntNumber(1))), (StrKey("name"), Str("Île-de-France"))]);
      var data := LevelsOnly([region, Arr([(StrKey("code"), Str("75"))])]);
      WellTyped(data) && FromArray(data).adminLevels == [AdminLevel(1, "Île-de-France", None)]
  {
    var region := Arr([(StrKey("level"), Num(IntNumber(1))), (StrKey("name"), Str("Île-de-France"))]);
    var city := Arr([(StrKey("code"), Str("75"))]);
    var entries := [region, city];
    assert Lookup(region, "name") == Find(region.entries[1..], "name") == Str("Île-de-France");
    assert Lookup(region, "code") == Find(region.entries[1..], "code") == Null;
    assert Lookup(city, "level") == Find(city.entries[1..], "level") == Null;
    assert LevelsTyped(entries) by {
      assert EntryTyped(entries[0]) && EntryTyped(entries[1]);
    }
    assert KeptLevels(entries) == [AdminLevel(1, "Île-de-France", None)] by {
      assert entries[1..][1..] == [];
    }
    LevelsOnlyBuilds(entries);
  }

  /** `[{level: 2, code: "75"}]`: with no name, the level is named by its code. */
  lemma NameFallsBackToCode()
    ensures var data := LevelsOnly([Arr([(StrKey("level"), Num(IntNumber(2))), (StrKey("code"), Str("75"))])]);
      WellTyped(data) && FromArray(data).adminLevels == [AdminLevel(2, "75", Some("75"))]
  {
    var department := Arr([(StrKey("level"), Num(IntNumber(2))), (StrKey("code"), Str("75"))]);
    var entries := [department];
    assert Lookup(department, "name") == Find(department.entries[1..], "name") == Null;
    assert Lookup(department, "code") == Find(department.entries[1..], "code") == Str("75");
    assert LevelsTyped(entries) by {
      assert EntryTyped(entries[0]);
    }
    assert KeptLevels(entries) == [AdminLevel(2, "75", Some("75"))] by {
      assert entries[1..] == [];
    }
    LevelsOnlyBuilds(entries);
  }

  /**
   * An address whose admin levels have a non-zero level and a name other than
   * "" and "0", and whose country, if any, has a name or a code: exactly the
   * addresses `createFromArray` can produce (`BuiltIsNormal`,
   * `DescribeRoundTrip`).
   */
  predicate Normal(v: AddressFields) {
    && (forall j :: 0 <= j < |v.adminLevels| ==>
          v.adminLevels[j].level != 0 && v.adminLevels[j].name != "" && v.adminLevels[j].name != "0")
    && (v.country.Some? ==> v.country.value.name.Some? || v.country.value.code.Some?)
  }

  /** The raw entry describing one admin level. */
  function LevelEntry(level: AdminLevel): Value {
    Arr([(StrKey("level"), Num(IntNumber(level.level))),
         (StrKey("name"), Str(level.name)),
         (StrKey("code"), StrOrNull(level.code))])
  }

  function LevelEntries(levels: seq<AdminLevel>): (r: seq<Value>)
    ensures |r| == |levels|
  {
    if levels == [] then [] else [LevelEntry(levels[0])] + LevelEntries(levels[1..])
  }

  /** A PHP list: the values under the keys 0, 1, 2, ... */
  function List(values: seq<Value>): (r: Value)
    ensures Items(r) == values
  {
    var entries := seq(|values|, j requires 0 <= j < |values| => (IntKey(j), values[j]));
    assert Items(Arr(entries)) == values;
    Arr(entries)
  }

  /** The bounds array describing optional bounds. */
  function BoundsEntry(bounds: Option<Bounds>): Value {
    if bounds.None? then Null
    else Arr([(StrKey("south"), Num(bounds.value.south)), (StrKey("west"), Num(bounds.value.west)),
              (StrKey("north"), Num(bounds.value.north)), (StrKey("east"), Num(bounds.value.east))])
  }

  /** The value the array describing an address holds under each key. */
  function DescribeAt(v: AddressFields, key: DataKey): Value {
    match key
    case ProvidedByKey => Str(v.providedBy)
    case LatitudeKey => if v.coordinates.Some? then Num(v.coordinates.value.latitude) else Null
    case LongitudeKey => if v.coordinates.Some? then Num(v.coordinates.value.longitude) else Null
    case BoundsKey => BoundsEntry(v.bounds)
    case StreetNumberKey => StrOrNull(v.streetNumber)
    case StreetNameKey => StrOrNull(v.streetName)
    case LocalityKey => StrOrNull(v.locality)
    case PostalCodeKey => StrOrNull(v.postalCode)
    case SubLocalityKey => StrOrNull(v.subLocality)
    case AdminLevelsKey => List(LevelEntries(v.adminLevels))
    case CountryKey => if v.country.Some? then StrOrNull(v.country.value.name) else Null
    case CountryCodeKey => if v.country.Some? then StrOrNull(v.country.value.code) else Null
    case TimezoneKey => StrOrNull(v.timezone)
    case CityCodeKey => StrOrNull(v.cityCode)
    case OldCityCodeKey => StrOrNull(v.oldCityCode)
  }

  /** The array describing an address, in the shape `createFromArray` reads: every key set. */
  function Describe(v: AddressFields): map<DataKey, Value> {
    map key | key in AllKeys :: DescribeAt(v, key)
  }

  /**
   * The array describing an address holds, under each key, that key's
   * description. This is `DescribeAt` written out key by key and split into
   * scalars and objects, so that each proof about it unfolds only the keys it
   * needs.
   */
  predicate Describes(data: map<DataKey, Value>, v: AddressFields) {
    DescribesScalars(data, v) && DescribesObjects(data, v)
  }

  predicate DescribesScalars(data: map<DataKey, Value>, v: AddressFields) {
    && ProvidedByKey in data && data[ProvidedByKey] == Str(v.providedBy)
    && Field(data, StreetNumberKey) == StrOrNull(v.streetNumber)
    && Field(data, StreetNameKey) == StrOrNull(v.streetName)
    && Field(data, LocalityKey) == StrOrNull(v.locality)
    && Field(data, PostalCodeKey) == StrOrNull(v.postalCode)
    && Field(data, SubLocalityKey) == StrOrNull(v.subLocality)
    && Field(data, TimezoneKey) == StrOrNull(v.timezone)
    && Field(data, CityCodeKey) == StrOrNull(v.cityCode)
    && Field(data, OldCityCodeKey) == StrOrNull(v.oldCityCode)
  }

  predicate DescribesObjects(data: map<DataKey, Value>, v: AddressFields) {
    && Field(data, LatitudeKey) == (if v.coordinates.Some? then Num(v.coordinates.value.latitude) else Null)
    && Field(data, LongitudeKey) == (if v.coordinates.Some? then Num(v.coordinates.value.longitude) else Null)
    && Field(data, BoundsKey) == BoundsEntry(v.bounds)
    && Field(data, AdminLevelsKey) == List(LevelEntries(v.adminLevels))
    && Field(data, CountryKey) == (if v.country.Some? then StrOrNull(v.country.value.name) else Null)
    && Field(data, CountryCodeKey) == (if v.country.Some? then StrOrNull(v.country.value.code) else Null)
  }

  lemma DescribeKey(v: AddressFields, key: DataKey)
    ensures key in Describe(v) && Describe(v)[key] == DescribeAt(v, key)
  {
    AllKeysComplete();
  }

  lemma DescribeDescribesScalars(v: AddressFields)
    ensures DescribesScalars(Describe(v), v)
  {
    DescribeKey(v, ProvidedByKey);
    DescribeKey(v, StreetNumberKey);
    DescribeKey(v, StreetNameKey);
    DescribeKey(v, LocalityKey);
    DescribeKey(v, PostalCodeKey);
    DescribeKey(v, SubLocalityKey);
    DescribeKey(v, TimezoneKey);
    DescribeKey(v, CityCodeKey);
    DescribeKey(v, OldCityCodeKey);
  }

  lemma DescribeDescribesObjects(v: AddressFields)
    ensures DescribesObjects(Describe(v), v)
  {
    DescribeKey(v, LatitudeKey);
    DescribeKey(v, LongitudeKey);
    DescribeKey(v, BoundsKey);
    DescribeKey(v, AdminLevelsKey);
    DescribeKey(v, CountryKey);
    DescribeKey(v, CountryCodeKey);
  }

  /** The entry describing a level with a non-zero level and a non-empty name is kept and rebuilds it. */
  lemma LevelEntryKept(level: AdminLevel)
    requires level.level != 0 && level.name != "" && level.name != "0"
    ensures var e := LevelEntry(level); LevelsTyped([e]) && KeptLevels([e]) == [level]
  {
    var e := LevelEntry(level);
    var rest := e.entries[1..];
    assert Lookup(e, "level") == Num(IntNumber(level.level));
    assert rest[0].0 == StrKey("name") && rest[1..][0].0 == StrKey("code");
    assert Lookup(e, "name") == Find(rest, "name") == Str(level.name);
    assert Lookup(e, "code") == Find(rest, "code") == Find(rest[1..], "code") == StrOrNull(level.code);
    assert [e][1..] == [];
  }

  /** Every described admin level is kept, and rebuilt exactly. */
  lemma {:induction false} KeptLevelEntries(levels: seq<AdminLevel>)
    requires forall j :: 0 <= j < |levels| ==>
               levels[j].level != 0 && levels[j].name != "" && levels[j].name != "0"
    ensures LevelsTyped(LevelEntries(levels))
    ensures KeptLevels(LevelEntries(levels)) == levels
  {
    if levels != [] {
      var e := LevelEntry(levels[0]);
      LevelEntryKept(levels[0]);
      KeptLevelEntries(levels[1..]);
      KeptLevelsAppend([e], LevelEntries(levels[1..]));
      assert LevelEntries(levels) == [e] + LevelEntries(levels[1..]);
      assert levels == [levels[0]] + levels[1..];
    }
  }

  /** The sides of a bounds entry, read back by name. */
  lemma BoundsEntrySides(bounds: Option<Bounds>)
    ensures var b := BoundsEntry(bounds);
      && Lookup(b, "south") == (if bounds.Some? then Num(bounds.value.south) else Null)
      && Lookup(b, "west") == (if bounds.Some? then Num(bounds.value.west) else Null)
      && Lookup(b, "north") == (if bounds.Some? then Num(bounds.value.north) else Null)
      && Lookup(b, "east") == (if bounds.Some? then Num(bounds.value.east) else Null)
  {
    if bounds.Some? {
      var es := BoundsEntry(bounds).entries;
      assert es[1..][1..][1..][0].0 == StrKey("east");
      assert Find(es, "east") == Find(es[1..], "east") == Find(es[1..][1..], "east") == Find(es[1..][1..][1..], "east");
      assert Find(es, "north") == Find(es[1..], "north") == Find(es[1..][1..], "north");
      assert Find(es, "west") == Find(es[1..], "west");
    }
  }

  /** The array describing a normal address is one `createFromArray` accepts. */
  lemma DescribedWellTyped(data: map<DataKey, Value>, v: AddressFields)
    requires Normal(v) && Describes(data, v)
    ensures WellTyped(data)
  {
    DescribedObjectsTyped(data, v);
    WellTypedOnCallerData(data);
  }

  /** The objects of the array describing a normal address are what the constructors accept. */
  lemma DescribedObjectsTyped(data: map<DataKey, Value>, v: AddressFields)
    requires Normal(v) && DescribesObjects(data, v)
    ensures ObjectsTyped(data)
  {
    BoundsEntrySides(v.bounds);
    KeptLevelEntries(v.adminLevels);
  }

  /**
   * `createFromArray` loses nothing: the array describing an address whose
   * admin levels have a non-zero level and a non-empty name, and whose
   * country has a name or a code, builds that very address.
   */
  lemma DescribeRoundTrip(v: AddressFields)
    requires Normal(v)
    ensures WellTyped(Describe(v))
    ensures FromArray(Describe(v)) == v
  {
    var data := Describe(v);
    DescribeDescribesScalars(v);
    DescribeDescribesObjects(v);
    DescribedWellTyped(data, v);
    var r := FromArray(data);
    RoundTripScalars(v, data, r);
    RoundTripObjects(v, data, r);
  }

  lemma RoundTripScalars(v: AddressFields, data: map<DataKey, Value>, r: AddressFields)
    requires Describes(data, v) && WellTyped(data) && r == FromArray(data)
    ensures r.providedBy == v.providedBy
    ensures r.streetNumber == v.streetNumber && r.streetName == v.streetName
    ensures r.postalCode == v.postalCode && r.locality == v.locality
    ensures r.subLocality == v.subLocality && r.timezone == v.timezone
    ensures r.cityCode == v.cityCode && r.oldCityCode == v.oldCityCode
  {
    FromArrayScalars(data);
  }

  lemma RoundTripObjects(v: AddressFields, data: map<DataKey, Value>, r: AddressFields)
    requires Normal(v)
    requires Describes(data, v) && WellTyped(data) && r == FromArray(data)
    ensures r.adminLevels == v.adminLevels
    ensures r.coordinates == v.coordinates && r.bounds == v.bounds && r.country == v.country
  {
    BoundsEntrySides(v.bounds);
    KeptLevelEntries(v.adminLevels);
    FromArrayLevels(data);
    FromArrayOptionals(data);
  }

  /** Conversely, every address `createFromArray` builds is normal. */
  lemma BuiltIsNormal(data: map<DataKey, Value>)
    requires WellTyped(data)
    ensures Normal(FromArray(data))
  {
    var r := FromArray(data);
    FromArrayLevels(data);
    FromArrayOptionals(data);
    var entries := Items(Field(data, AdminLevelsKey));
    forall j | 0 <= j < |r.adminLevels|
      ensures r.adminLevels[j].level != 0 && r.adminLevels[j].name != "" && r.adminLevels[j].name != "0"
    {
      KeptLevelsMembership(entries, r.adminLevels[j]);
    }
  }
}
