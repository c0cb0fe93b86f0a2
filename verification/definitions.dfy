/**
 * Query parameters of the three location searches, their encoding into the
 * request mapping, and the result envelope (src/definitions.py).
 */
module Definitions {
  import opened Wrappers
  import Dicts
  import Casing
  import IsoDates

  // ---------------------------------------------------------------------------
  // The enumerations and their string values.
  // ---------------------------------------------------------------------------

  datatype ProviderType = Express | Parcel
  {
    /** The member's string value. */
    function Value(): string
    {
      match this
      case Express => "express"
      case Parcel => "parcel"
    }
  }

  /** `ProviderType(s)`: the member whose value is `s`. */
  function ProviderTypeOf(s: string): Option<ProviderType>
  {
    if s == "express" then Some(Express)
    else if s == "parcel" then Some(Parcel)
    else None
  }

  datatype LocationType = ServicePoint | Locker | PostOffice | Postbank | Pobox | Postbox
  {
    /** The member's string value. */
    function Value(): string
    {
      match this
      case ServicePoint => "servicepoint"
      case Locker => "locker"
      case PostOffice => "postoffice"
      case Postbank => "postbank"
      case Pobox => "pobox"
      case Postbox => "postbox"
    }
  }

  /** `LocationType(s)`: the member whose value is `s`. */
  function LocationTypeOf(s: string): Option<LocationType>
  {
    if s == "servicepoint" then Some(ServicePoint)
    else if s == "locker" then Some(Locker)
    else if s == "postoffice" then Some(PostOffice)
    else if s == "postbank" then Some(LocationType.Postbank)
    else if s == "pobox" then Some(Pobox)
    else if s == "postbox" then Some(Postbox)
    else None
  }

  datatype ServiceType =
      ParcelPickUpAll
    | ParcelDropOffAll
    | AgeVerification
    | CashOnDelivery
    | CashService
    | ExpressDropOff
    | ExpressDropOffAccount
    | ExpressDropOffEasy
    | ExpressDropOffPrelabeled
    | ExpressDropOffUnlabeled
    | ExpressPickUp
    | Franking
    | HandicappedAccess
    | LetterService
    | PackagingMaterial
    | ParcelDropOff
    | ParcelDropOffFirstmile
    | ParcelDropOffFirstmileUnlabeled
    | ParcelDropOffReturn
    | ParcelDropOffReturnUnlabeled
    | ParcelDropOffUnlabeled
    | ParcelDropOffUnregistered
    | ParcelPickUp
    | ParcelPickUpRegistered
    | ParcelPickUpUnregistered
    | Parking
    | Postbank
    | Postident
  {
    /** The member's string value. */
    function Value(): string
    {
      match this
      case ParcelPickUpAll => "parcel:pick-up-all"
      case ParcelDropOffAll => "parcel:drop-off-all"
      case AgeVerification => "age-verification"
      case CashOnDelivery => "cash-on-delivery"
      case CashService => "cash-service"
      case ExpressDropOff => "express:drop-off"
      case ExpressDropOffAccount => "express:drop-off-account"
      case ExpressDropOffEasy => "express:drop-off-easy"
      case ExpressDropOffPrelabeled => "express:drop-off-prelabeled"
      case ExpressDropOffUnlabeled => "express:drop-off-unlabeled"
      case ExpressPickUp => "express:pick-up"
      case Franking => "franking"
      case HandicappedAccess => "handicapped-access"
      case LetterService => "letter-service"
      case PackagingMaterial => "packaging-material"
      case ParcelDropOff => "parcel:drop-off"
      case ParcelDropOffFirstmile => "parcel:drop-off-firstmile"
      case ParcelDropOffFirstmileUnlabeled => "parcel:drop-off-firstmile-unlabeled"
      case ParcelDropOffReturn => "parcel:drop-off-return"
      case ParcelDropOffReturnUnlabeled => "parcel:drop-off-return-unlabeled"
      case ParcelDropOffUnlabeled => "parcel:drop-off-unlabeled"
      case ParcelDropOffUnregistered => "parcel:drop-off-unregistered"
      case ParcelPickUp => "parcel:pick-up"
      case ParcelPickUpRegistered => "parcel:pick-up-registered"
      case ParcelPickUpUnregistered => "parcel:pick-up-unregistered"
      case Parking => "parking"
      case Postbank => "postbank"
      case Postident => "postident"
    }
  }

  /** `ProviderType(v.value) == v`, and a string that is no member's value is refused. */
  lemma ProviderTypeRoundTrip(p: ProviderType, s: string)
    ensures ProviderTypeOf(p.Value()) == Some(p)
    ensures ProviderTypeOf(s) == Some(p) <==> s == p.Value()
  {
  }

  /** `LocationType(v.value) == v`, and a string that is no member's value is refused. */
  lemma LocationTypeRoundTrip(l: LocationType, s: string)
    ensures LocationTypeOf(l.Value()) == Some(l)
    ensures LocationTypeOf(s) == Some(l) <==> s == l.Value()
  {
  }

  /** Distinct provider types have distinct value strings. */
  lemma ProviderValueInjective(p: ProviderType, q: ProviderType)
    requires p.Value() == q.Value()
    ensures p == q
  {
    ProviderTypeRoundTrip(p, q.Value());
  }

  /** Distinct location types have distinct value strings. */
  lemma LocationValueInjective(l: LocationType, m: LocationType)
    requires l.Value() == m.Value()
    ensures l == m
  {
    LocationTypeRoundTrip(l, m.Value());
  }

  /**
   * Distinct service types have distinct value strings. The proof is split by
   * the first member into groups of four (the `ServiceValueInjectiveFrom`
   * lemmas below, identical but for their group) only to keep each case
   * analysis over the 28 strings small enough for the solver.
   */
  lemma ServiceValueInjective(a: ServiceType, b: ServiceType)
    requires a.Value() == b.Value()
    ensures a == b
  {
    if a.ParcelPickUpAll? || a.ParcelDropOffAll? || a.AgeVerification? || a.CashOnDelivery? {
      ServiceValueInjectiveFromParcelPickUpAll(a, b);
    } else if a.CashService? || a.ExpressDropOff? || a.ExpressDropOffAccount? || a.ExpressDropOffEasy? {
      ServiceValueInjectiveFromCashService(a, b);
    } else if a.ExpressDropOffPrelabeled? || a.ExpressDropOffUnlabeled? || a.ExpressPickUp? || a.Franking? {
      ServiceValueInjectiveFromExpressDropOffPrelabeled(a, b);
    } else if a.HandicappedAccess? || a.LetterService? || a.PackagingMaterial? || a.ParcelDropOff? {
      ServiceValueInjectiveFromHandicappedAccess(a, b);
    } else if a.ParcelDropOffFirstmile? || a.ParcelDropOffFirstmileUnlabeled? || a.ParcelDropOffReturn? || a.ParcelDropOffReturnUnlabeled? {
      ServiceValueInjectiveFromParcelDropOffFirstmile(a, b);
    } else if a.ParcelDropOffUnlabeled? || a.ParcelDropOffUnregistered? || a.ParcelPickUp? || a.ParcelPickUpRegistered? {
      ServiceValueInjectiveFromParcelDropOffUnlabeled(a, b);
    } else {
      ServiceValueInjectiveFromParcelPickUpUnregistered(a, b);
    }
  }

  /** Injectivity for a first member among ParcelPickUpAll and the three members declared after it. */
  lemma ServiceValueInjectiveFromParcelPickUpAll(a: ServiceType, b: ServiceType)
    requires a.ParcelPickUpAll? || a.ParcelDropOffAll? || a.AgeVerification? || a.CashOnDelivery?
    requires a.Value() == b.Value()
    ensures a == b
  {
  }

  /** Injectivity for a first member among CashService and the three members declared after it. */
  lemma ServiceValueInjectiveFromCashService(a: ServiceType, b: ServiceType)
    requires a.CashService? || a.ExpressDropOff? || a.ExpressDropOffAccount? || a.ExpressDropOffEasy?
    requires a.Value() == b.Value()
    ensures a == b
  {
  }

  /** Injectivity for a first member among ExpressDropOffPrelabeled and the three members declared after it. */
  lemma ServiceValueInjectiveFromExpressDropOffPrelabeled(a: ServiceType, b: ServiceType)
    requires a.ExpressDropOffPrelabeled? || a.ExpressDropOffUnlabeled? || a.ExpressPickUp? || a.Franking?
    requires a.Value() == b.Value()
    ensures a == b
  {
  }

  /** Injectivity for a first member among HandicappedAccess and the three members declared after it. */
  lemma ServiceValueInjectiveFromHandicappedAccess(a: ServiceType, b: ServiceType)
    requires a.HandicappedAccess? || a.LetterService? || a.PackagingMaterial? || a.ParcelDropOff?
    requires a.Value() == b.Value()
    ensures a == b
  {
  }

  /** Injectivity for a first member among ParcelDropOffFirstmile and the three members declared after it. */
  lemma ServiceValueInjectiveFromParcelDropOffFirstmile(a: ServiceType, b: ServiceType)
    requires a.ParcelDropOffFirstmile? || a.ParcelDropOffFirstmileUnlabeled? || a.ParcelDropOffReturn? || a.ParcelDropOffReturnUnlabeled?
    requires a.Value() == b.Value()
    ensures a == b
  {
  }

  /** Injectivity for a first member among ParcelDropOffUnlabeled and the three members declared after it. */
  lemma ServiceValueInjectiveFromParcelDropOffUnlabeled(a: ServiceType, b: ServiceType)
    requires a.ParcelDropOffUnlabeled? || a.ParcelDropOffUnregistered? || a.ParcelPickUp? || a.ParcelPickUpRegistered?
    requires a.Value() == b.Value()
    ensures a == b
  {
  }

  /** Injectivity for a first member among ParcelPickUpUnregistered and the three members declared after it. */
  lemma ServiceValueInjectiveFromParcelPickUpUnregistered(a: ServiceType, b: ServiceType)
    requires a.ParcelPickUpUnregistered? || a.Parking? || a.Postbank? || a.Postident?
    requires a.Value() == b.Value()
    ensures a == b
  {
  }

  /** `[str(f.value) for f in ps]`. */
  function ProviderValues(ps: seq<ProviderType>): seq<string>
  {
    seq(|ps|, i requires 0 <= i < |ps| => ps[i].Value())
  }

  function LocationValues(ls: seq<LocationType>): seq<string>
  {
    seq(|ls|, i requires 0 <= i < |ls| => ls[i].Value())
  }

  function ServiceValues(ss: seq<ServiceType>): seq<string>
  {
    seq(|ss|, i requires 0 <= i < |ss| => ss[i].Value())
  }

  // ---------------------------------------------------------------------------
  // Values: what a dataclass field holds and what the request mapping holds.
  // ---------------------------------------------------------------------------

  /** An IEEE-754 double, kept as its bit pattern: the client only passes it on. */
  datatype Float64 = Float64(bits: bv64)

  /** A number where a field is declared `float`: Python lets an int through (the radius default 5000 is one). */
  datatype Number = IntNumber(i: int) | FloatNumber(f: Float64)

  /** A value of the request mapping. */
  datatype WireValue = Null | Str(s: string) | StrList(items: seq<string>) | Int(i: int) | Bool(b: bool) | Num(f: Float64)

  /** The value a dataclass field holds. */
  datatype FieldValue =
    | NoneValue
    | StrValue(s: string)
    | IntValue(i: int)
    | FloatValue(f: Float64)
    | BoolValue(b: bool)
    | Providers(providers: seq<ProviderType>)
    | Locations(locations: seq<LocationType>)
    | Services(services: seq<ServiceType>)
    | DateValue(date: IsoDates.Date)

  /** A dataclass field, as `dataclasses.fields` enumerates it, with its current value. */
  datatype Field = Field(name: string, value: FieldValue)

  /**
   * The dataclass field names, each written as its `_`-separated words so
   * that the camelCase lemmas below can see the words.
   */
  const KeywordIdName: string := "keyword" + "_" + "id"
  const CountryCodeName: string := "country" + "_" + "code"
  const PostalCodeName: string := "postal" + "_" + "code"
  const AddressLocalityName: string := "address" + "_" + "locality"
  const StreetAddressName: string := "street" + "_" + "address"
  const ProviderTypeName: string := "provider" + "_" + "type"
  const LocationTypeName: string := "location" + "_" + "type"
  const ServiceTypeName: string := "service" + "_" + "type"
  const RadiusName: string := "radius"
  const LimitName: string := "limit"
  const HideClosedLocationsName: string := "hide" + "_" + "closed" + "_" + "locations"
  const CurrentDateName: string := "current" + "_" + "date"
  const LatitudeName: string := "latitude"
  const LongitudeName: string := "longitude"

  const EnumFieldNames: seq<string> := [ProviderTypeName, LocationTypeName, ServiceTypeName]
  const DateFieldNames: seq<string> := [CurrentDateName]

  /** A name that takes neither the enumeration rule nor the date rule. */
  predicate PlainName(name: string)
  {
    name !in EnumFieldNames && name !in DateFieldNames
  }

  predicate IsScalar(v: FieldValue)
  {
    v.StrValue? || v.IntValue? || v.FloatValue? || v.BoolValue?
  }

  predicate IsEnumList(v: FieldValue)
  {
    v.Providers? || v.Locations? || v.Services?
  }

  /**
   * The field holds a value of its declared type: None, or a collection of
   * enumeration members for the collection fields, a date for `current_date`,
   * a plain scalar otherwise.
   */
  predicate WellTyped(f: Field)
  {
    || f.value.NoneValue?
    || (if f.name in EnumFieldNames then IsEnumList(f.value)
        else if f.name in DateFieldNames then f.value.DateValue?
        else IsScalar(f.value))
  }

  predicate AllWellTyped(fs: seq<Field>)
  {
    forall i :: 0 <= i < |fs| ==> WellTyped(fs[i])
  }

  function OptionalStr(o: Option<string>): FieldValue
  {
    match o
    case None => NoneValue
    case Some(s) => StrValue(s)
  }

  function NumberValue(n: Number): FieldValue
  {
    match n
    case IntNumber(i) => IntValue(i)
    case FloatNumber(f) => FloatValue(f)
  }

  function OptionalProviders(o: Option<seq<ProviderType>>): FieldValue
  {
    match o
    case None => NoneValue
    case Some(ps) => Providers(ps)
  }

  function OptionalLocations(o: Option<seq<LocationType>>): FieldValue
  {
    match o
    case None => NoneValue
    case Some(ls) => Locations(ls)
  }

  function OptionalServices(o: Option<seq<ServiceType>>): FieldValue
  {
    match o
    case None => NoneValue
    case Some(ss) => Services(ss)
  }

  function OptionalDate(o: Option<IsoDates.Date>): FieldValue
  {
    match o
    case None => NoneValue
    case Some(d) => DateValue(d)
  }

  // ---------------------------------------------------------------------------
  // The encoding rule for one field.
  // ---------------------------------------------------------------------------

  /** A scalar goes into the request mapping unchanged. */
  function PassThrough(v: FieldValue): WireValue
    requires IsScalar(v)
  {
    match v
    case StrValue(s) => Str(s)
    case IntValue(i) => Int(i)
    case FloatValue(f) => Num(f)
    case BoolValue(b) => Bool(b)
  }

  function EnumValues(v: FieldValue): seq<string>
    requires IsEnumList(v)
  {
    match v
    case Providers(ps) => ProviderValues(ps)
    case Locations(ls) => LocationValues(ls)
    case Services(ss) => ServiceValues(ss)
  }

  /**
   * The value a field contributes to the request mapping of the address and
   * geo searches, by the first rule that applies: None becomes null, a
   * provider/location/service-type collection the list of its members' string
   * values, `current_date` its ISO rendering, anything else itself.
   */
  function EncodeField(f: Field): WireValue
    requires WellTyped(f)
  {
    if f.value.NoneValue? then Null
    else if f.name in EnumFieldNames then StrList(EnumValues(f.value))
    else if f.name in DateFieldNames then Str(IsoDates.IsoFormat(f.value.date))
    else PassThrough(f.value)
  }

  /** The (key, value) pair a field contributes: its camelCase name and its encoded value. */
  function Entry(f: Field): (string, WireValue)
    requires WellTyped(f)
  {
    (Casing.Camel(f.name), EncodeField(f))
  }

  /** The pairs of all fields, in field order. */
  function Entries(fs: seq<Field>): seq<(string, WireValue)>
    requires AllWellTyped(fs)
  {
    seq(|fs|, i requires 0 <= i < |fs| => Entry(fs[i]))
  }

  /**
   * The loop of `to_request_format` in the address and geo searches: for each
   * field in declaration order, assign its camelCase key in the mapping to the
   * value chosen by the four-way rule.
   */
  method EncodeFields(fs: seq<Field>) returns (apiFormat: seq<(string, WireValue)>)
    requires AllWellTyped(fs)
    ensures apiFormat == Dicts.FromPairs(Entries(fs))
  {
    apiFormat := [];
    for i := 0 to |fs|
      invariant apiFormat == Dicts.FromPairs(Entries(fs)[..i])
    {
      var field := fs[i];
      var key := Casing.SnakeToCamelCase(field.name);
      var value: WireValue;
      if field.value.NoneValue? {
        value := Null;
      } else if field.name in EnumFieldNames {
        value := StrList(EnumValues(field.value));
      } else if field.name in DateFieldNames {
        value := Str(IsoDates.IsoFormat(field.value.date));
      } else {
        value := PassThrough(field.value);
      }
      assert Entries(fs)[..i + 1] == Entries(fs)[..i] + [(key, value)];
      apiFormat := Dicts.Put(apiFormat, key, value);
    }
    assert Entries(fs)[..|fs|] == Entries(fs);
  }

  // ---------------------------------------------------------------------------
  // The pair each kind of field contributes, for a field name whose key is known.
  // ---------------------------------------------------------------------------

  lemma StrEntry(name: string, key: string, s: string)
    requires PlainName(name) && Casing.Camel(name) == key
    ensures WellTyped(Field(name, StrValue(s)))
    ensures Entry(Field(name, StrValue(s))) == (key, Str(s))
  {
  }

  /** An optional string is null when absent, and present as the string otherwise. */
  lemma OptionalStrEntry(name: string, key: string, o: Option<string>)
    requires PlainName(name) && Casing.Camel(name) == key
    ensures WellTyped(Field(name, OptionalStr(o)))
    ensures Entry(Field(name, OptionalStr(o))) == (key, StrOrNull(o))
  {
  }

  lemma NumberEntry(name: string, key: string, n: Number)
    requires PlainName(name) && Casing.Camel(name) == key
    ensures WellTyped(Field(name, NumberValue(n)))
    ensures Entry(Field(name, NumberValue(n))) == (key, NumberWire(n))
  {
  }

  lemma IntEntry(name: string, key: string, i: int)
    requires PlainName(name) && Casing.Camel(name) == key
    ensures WellTyped(Field(name, IntValue(i)))
    ensures Entry(Field(name, IntValue(i))) == (key, Int(i))
  {
  }

  lemma BoolEntry(name: string, key: string, b: bool)
    requires PlainName(name) && Casing.Camel(name) == key
    ensures WellTyped(Field(name, BoolValue(b)))
    ensures Entry(Field(name, BoolValue(b))) == (key, Bool(b))
  {
  }

  /** An enumeration collection is null when absent, and the list of its members' values otherwise. */
  lemma ProvidersEntry(name: string, key: string, o: Option<seq<ProviderType>>)
    requires name in EnumFieldNames && Casing.Camel(name) == key
    ensures WellTyped(Field(name, OptionalProviders(o)))
    ensures Entry(Field(name, OptionalProviders(o))) == (key, ProvidersOrNull(o))
  {
  }

  lemma LocationsEntry(name: string, key: string, o: Option<seq<LocationType>>)
    requires name in EnumFieldNames && Casing.Camel(name) == key
    ensures WellTyped(Field(name, OptionalLocations(o)))
    ensures Entry(Field(name, OptionalLocations(o))) == (key, LocationsOrNull(o))
  {
  }

  lemma ServicesEntry(name: string, key: string, o: Option<seq<ServiceType>>)
    requires name in EnumFieldNames && Casing.Camel(name) == key
    ensures WellTyped(Field(name, OptionalServices(o)))
    ensures Entry(Field(name, OptionalServices(o))) == (key, ServicesOrNull(o))
  {
  }

  /** A date is null when absent, and its ISO rendering otherwise. */
  lemma DateEntry(name: string, key: string, o: Option<IsoDates.Date>)
    requires name !in EnumFieldNames && name in DateFieldNames && Casing.Camel(name) == key
    ensures WellTyped(Field(name, OptionalDate(o)))
    ensures Entry(Field(name, OptionalDate(o))) == (key, DateOrNull(o))
  {
  }

  lemma EntriesDisplay10(f0: Field, f1: Field, f2: Field, f3: Field, f4: Field, f5: Field, f6: Field, f7: Field, f8: Field, f9: Field)
    requires WellTyped(f0) && WellTyped(f1) && WellTyped(f2) && WellTyped(f3) && WellTyped(f4) && WellTyped(f5) && WellTyped(f6) && WellTyped(f7) && WellTyped(f8) && WellTyped(f9)
    ensures AllWellTyped([f0, f1, f2, f3, f4, f5, f6, f7, f8, f9])
    ensures Entries([f0, f1, f2, f3, f4, f5, f6, f7, f8, f9]) == [Entry(f0), Entry(f1), Entry(f2), Entry(f3), Entry(f4), Entry(f5), Entry(f6), Entry(f7), Entry(f8), Entry(f9)]
  {
    SeqDisplay10(Entries([f0, f1, f2, f3, f4, f5, f6, f7, f8, f9]));
  }


  lemma EntriesDisplay11(f0: Field, f1: Field, f2: Field, f3: Field, f4: Field, f5: Field, f6: Field, f7: Field, f8: Field, f9: Field, f10: Field)
    requires WellTyped(f0) && WellTyped(f1) && WellTyped(f2) && WellTyped(f3) && WellTyped(f4) && WellTyped(f5) && WellTyped(f6) && WellTyped(f7) && WellTyped(f8) && WellTyped(f9) && WellTyped(f10)
    ensures AllWellTyped([f0, f1, f2, f3, f4, f5, f6, f7, f8, f9, f10])
    ensures Entries([f0, f1, f2, f3, f4, f5, f6, f7, f8, f9, f10]) == [Entry(f0), Entry(f1), Entry(f2), Entry(f3), Entry(f4), Entry(f5), Entry(f6), Entry(f7), Entry(f8), Entry(f9), Entry(f10)]
  {
    SeqDisplay11(Entries([f0, f1, f2, f3, f4, f5, f6, f7, f8, f9, f10]));
  }


  // ---------------------------------------------------------------------------
  // Wire keys: the camelCase form of every field name.
  // ---------------------------------------------------------------------------

  lemma KeyKeywordId()
    ensures Casing.Camel(KeywordIdName) == "keywordId"
    ensures PlainName(KeywordIdName)
  {
    Casing.CamelOfTwo("keyword", "id", KeywordIdName, "keywordId");
  }

  lemma KeyCountryCode()
    ensures Casing.Camel(CountryCodeName) == "countryCode"
    ensures PlainName(CountryCodeName)
  {
    Casing.CamelOfTwo("country", "code", CountryCodeName, "countryCode");
    assert CountryCodeName[0] != ServiceTypeName[0];
    assert CountryCodeName[1] != CurrentDateName[1];
  }

  lemma KeyPostalCode()
    ensures Casing.Camel(PostalCodeName) == "postalCode"
    ensures PlainName(PostalCodeName)
  {
    Casing.CamelOfTwo("postal", "code", PostalCodeName, "postalCode");
  }

  lemma KeyAddressLocality()
    ensures Casing.Camel(AddressLocalityName) == "addressLocality"
    ensures PlainName(AddressLocalityName)
  {
    Casing.CamelOfTwo("address", "locality", AddressLocalityName, "addressLocality");
  }

  lemma KeyStreetAddress()
    ensures Casing.Camel(StreetAddressName) == "streetAddress"
    ensures PlainName(StreetAddressName)
  {
    Casing.CamelOfTwo("street", "address", StreetAddressName, "streetAddress");
  }

  lemma KeyProviderType()
    ensures Casing.Camel(ProviderTypeName) == "providerType"
    ensures ProviderTypeName in EnumFieldNames
  {
    Casing.CamelOfTwo("provider", "type", ProviderTypeName, "providerType");
  }

  lemma KeyLocationType()
    ensures Casing.Camel(LocationTypeName) == "locationType"
    ensures LocationTypeName in EnumFieldNames
  {
    Casing.CamelOfTwo("location", "type", LocationTypeName, "locationType");
  }

  lemma KeyServiceType()
    ensures Casing.Camel(ServiceTypeName) == "serviceType"
    ensures ServiceTypeName in EnumFieldNames
  {
    Casing.CamelOfTwo("service", "type", ServiceTypeName, "serviceType");
  }

  lemma KeyRadius()
    ensures Casing.Camel(RadiusName) == "radius"
    ensures PlainName(RadiusName)
  {
    Casing.CamelKeepsPlainName(RadiusName);
  }

  lemma KeyLimit()
    ensures Casing.Camel(LimitName) == "limit"
    ensures PlainName(LimitName)
  {
    Casing.CamelKeepsPlainName(LimitName);
  }

  lemma KeyHideClosedLocations()
    ensures Casing.Camel(HideClosedLocationsName) == "hideClosedLocations"
    ensures PlainName(HideClosedLocationsName)
  {
    Casing.CamelOfThree("hide", "closed", "locations", HideClosedLocationsName, "hideClosedLocations");
  }

  lemma KeyCurrentDate()
    ensures Casing.Camel(CurrentDateName) == "currentDate"
    ensures CurrentDateName !in EnumFieldNames && CurrentDateName in DateFieldNames
  {
    Casing.CamelOfTwo("current", "date", CurrentDateName, "currentDate");
  }

  lemma KeyLatitude()
    ensures Casing.Camel(LatitudeName) == "latitude"
    ensures PlainName(LatitudeName)
  {
    Casing.CamelKeepsPlainName(LatitudeName);
  }

  lemma KeyLongitude()
    ensures Casing.Camel(LongitudeName) == "longitude"
    ensures PlainName(LongitudeName)
  {
    Casing.CamelKeepsPlainName(LongitudeName);
  }

  // ---------------------------------------------------------------------------
  // The wire table: what each value looks like in the request mapping.
  // ---------------------------------------------------------------------------

  function StrOrNull(o: Option<string>): WireValue
  {
    match o
    case None => Null
    case Some(s) => Str(s)
  }

  function NumberWire(n: Number): WireValue
  {
    match n
    case IntNumber(i) => Int(i)
    case FloatNumber(f) => Num(f)
  }

  function ProvidersOrNull(o: Option<seq<ProviderType>>): WireValue
  {
    match o
    case None => Null
    case Some(ps) => StrList(ProviderValues(ps))
  }

  function LocationsOrNull(o: Option<seq<LocationType>>): WireValue
  {
    match o
    case None => Null
    case Some(ls) => StrList(LocationValues(ls))
  }

  function ServicesOrNull(o: Option<seq<ServiceType>>): WireValue
  {
    match o
    case None => Null
    case Some(ss) => StrList(ServiceValues(ss))
  }

  function DateOrNull(o: Option<IsoDates.Date>): WireValue
  {
    match o
    case None => Null
    case Some(d) => Str(IsoDates.IsoFormat(d))
  }

  // ---------------------------------------------------------------------------
  // A sequence of known length is the display of its elements (used to
  // compare a computed request mapping with its table entry by entry).
  // ---------------------------------------------------------------------------

  lemma SeqDisplay3<T>(s: seq<T>)
    requires |s| == 3
    ensures s == [s[0], s[1], s[2]]
  {
  }

  lemma SeqDisplay10<T>(s: seq<T>)
    requires |s| == 10
    ensures s == [s[0], s[1], s[2], s[3], s[4], s[5], s[6], s[7], s[8], s[9]]
  {
  }

  lemma SeqDisplay11<T>(s: seq<T>)
    requires |s| == 11
    ensures s == [s[0], s[1], s[2], s[3], s[4], s[5], s[6], s[7], s[8], s[9], s[10]]
  {
  }

  // ---------------------------------------------------------------------------
  // Search by keyword id.
  // ---------------------------------------------------------------------------

  datatype FindByKeywordIdQueryParams = FindByKeywordIdQueryParams(keywordId: string, countryCode: string, postalCode: string)

  /** The dataclass fields in declaration order. */
  function KeywordIdFields(p: FindByKeywordIdQueryParams): seq<Field>
  {
    [Field(KeywordIdName, StrValue(p.keywordId)),
     Field(CountryCodeName, StrValue(p.countryCode)),
     Field(PostalCodeName, StrValue(p.postalCode))]
  }

  /** The request mapping of a keyword-id search: three keys, values passed through. */
  function KeywordIdWire(p: FindByKeywordIdQueryParams): seq<(string, WireValue)>
  {
    [("keywordId", Str(p.keywordId)), ("countryCode", Str(p.countryCode)), ("postalCode", Str(p.postalCode))]
  }

  /** The (key, value) pair of each plain field: its camelCase name and its value as it is. */
  function PlainEntries(fs: seq<Field>): seq<(string, WireValue)>
    requires forall i :: 0 <= i < |fs| ==> IsScalar(fs[i].value)
  {
    seq(|fs|, i requires 0 <= i < |fs| => (Casing.Camel(fs[i].name), PassThrough(fs[i].value)))
  }

  lemma KeywordIdEntries(p: FindByKeywordIdQueryParams)
    ensures PlainEntries(KeywordIdFields(p)) == KeywordIdWire(p)
  {
    SeqDisplay3(PlainEntries(KeywordIdFields(p)));
    KeyKeywordId();
    KeyCountryCode();
    KeyPostalCode();
  }

  lemma KeywordIdKeysDistinct(p: FindByKeywordIdQueryParams)
    ensures Dicts.DistinctKeys(KeywordIdWire(p))
  {
  }

  /**
   * `to_request_format`: a dictionary comprehension mapping every field's
   * camelCase name to the field's value, untouched.
   */
  function KeywordIdToRequestFormat(p: FindByKeywordIdQueryParams): (r: seq<(string, WireValue)>)
    ensures r == KeywordIdWire(p)
  {
    KeywordIdEntries(p);
    KeywordIdKeysDistinct(p);
    Dicts.FromPairsDistinct(KeywordIdWire(p));
    Dicts.FromPairs(PlainEntries(KeywordIdFields(p)))
  }

  // ---------------------------------------------------------------------------
  // Search by address.
  // ---------------------------------------------------------------------------

  datatype FindByAddressQueryParams = FindByAddressQueryParams(
    countryCode: string,
    addressLocality: Option<string> := None,
    postalCode: Option<string> := None,
    streetAddress: Option<string> := None,
    providerType: Option<seq<ProviderType>> := None,
    locationType: Option<seq<LocationType>> := None,
    serviceType: Option<seq<ServiceType>> := None,
    radius: Number := IntNumber(5000),
    limit: int := 15,
    hideClosedLocations: bool := false,
    currentDate: Option<IsoDates.Date> := None)

  /** The dataclass fields in declaration order. */
  function AddressFields(p: FindByAddressQueryParams): seq<Field>
  {
    [Field(CountryCodeName, StrValue(p.countryCode)),
     Field(AddressLocalityName, OptionalStr(p.addressLocality)),
     Field(PostalCodeName, OptionalStr(p.postalCode)),
     Field(StreetAddressName, OptionalStr(p.streetAddress)),
     Field(ProviderTypeName, OptionalProviders(p.providerType)),
     Field(LocationTypeName, OptionalLocations(p.locationType)),
     Field(ServiceTypeName, OptionalServices(p.serviceType)),
     Field(RadiusName, NumberValue(p.radius)),
     Field(LimitName, IntValue(p.limit)),
     Field(HideClosedLocationsName, BoolValue(p.hideClosedLocations)),
     Field(CurrentDateName, OptionalDate(p.currentDate))]
  }

  /** The request mapping of an address search: eleven keys in declaration order. */
  function AddressWire(p: FindByAddressQueryParams): seq<(string, WireValue)>
  {
    [("countryCode", Str(p.countryCode)),
     ("addressLocality", StrOrNull(p.addressLocality)),
     ("postalCode", StrOrNull(p.postalCode)),
     ("streetAddress", StrOrNull(p.streetAddress)),
     ("providerType", ProvidersOrNull(p.providerType)),
     ("locationType", LocationsOrNull(p.locationType)),
     ("serviceType", ServicesOrNull(p.serviceType)),
     ("radius", NumberWire(p.radius)),
     ("limit", Int(p.limit)),
     ("hideClosedLocations", Bool(p.hideClosedLocations)),
     ("currentDate", DateOrNull(p.currentDate))]
  }

  lemma AddressEntries(p: FindByAddressQueryParams)
    ensures AllWellTyped(AddressFields(p))
    ensures Entries(AddressFields(p)) == AddressWire(p)
  {
    KeyCountryCode();
    StrEntry(CountryCodeName, "countryCode", p.countryCode);
    KeyAddressLocality();
    OptionalStrEntry(AddressLocalityName, "addressLocality", p.addressLocality);
    KeyPostalCode();
    OptionalStrEntry(PostalCodeName, "postalCode", p.postalCode);
    KeyStreetAddress();
    OptionalStrEntry(StreetAddressName, "streetAddress", p.streetAddress);
    KeyProviderType();
    ProvidersEntry(ProviderTypeName, "providerType", p.providerType);
    KeyLocationType();
    LocationsEntry(LocationTypeName, "locationType", p.locationType);
    KeyServiceType();
    ServicesEntry(ServiceTypeName, "serviceType", p.serviceType);
    KeyRadius();
    NumberEntry(RadiusName, "radius", p.radius);
    KeyLimit();
    IntEntry(LimitName, "limit", p.limit);
    KeyHideClosedLocations();
    BoolEntry(HideClosedLocationsName, "hideClosedLocations", p.hideClosedLocations);
    KeyCurrentDate();
    DateEntry(CurrentDateName, "currentDate", p.currentDate);
    EntriesDisplay11(
      Field(CountryCodeName, StrValue(p.countryCode)),
      Field(AddressLocalityName, OptionalStr(p.addressLocality)),
      Field(PostalCodeName, OptionalStr(p.postalCode)),
      Field(StreetAddressName, OptionalStr(p.streetAddress)),
      Field(ProviderTypeName, OptionalProviders(p.providerType)),
      Field(LocationTypeName, OptionalLocations(p.locationType)),
      Field(ServiceTypeName, OptionalServices(p.serviceType)),
      Field(RadiusName, NumberValue(p.radius)),
      Field(LimitName, IntValue(p.limit)),
      Field(HideClosedLocationsName, BoolValue(p.hideClosedLocations)),
      Field(CurrentDateName, OptionalDate(p.currentDate)));
  }

  lemma AddressKeysDistinct(p: FindByAddressQueryParams)
    ensures Dicts.DistinctKeys(AddressWire(p))
  {
  }

  /** The keys of an address search, in declaration order. */
  const AddressKeys: seq<string> := ["countryCode", "addressLocality", "postalCode", "streetAddress", "providerType",
                                     "locationType", "serviceType", "radius", "limit", "hideClosedLocations", "currentDate"]

  /** Every field has its key, whatever the values: a None field is not omitted. */
  lemma AddressWireKeys(p: FindByAddressQueryParams)
    ensures Dicts.Keys(AddressWire(p)) == AddressKeys
  {
  }

  /**
   * `to_request_format` of the address search: the field loop yields exactly
   * the table of AddressWire (eleven keys, a None field as null, the
   * collections as lists of values, the date in ISO form).
   */
  method AddressToRequestFormat(p: FindByAddressQueryParams) returns (apiFormat: seq<(string, WireValue)>)
    ensures apiFormat == AddressWire(p)
  {
    AddressEntries(p);
    apiFormat := EncodeFields(AddressFields(p));
    AddressKeysDistinct(p);
    Dicts.FromPairsDistinct(AddressWire(p));
  }

  /** A search giving only the country code sends the defaults: radius 5000, limit 15, closed locations shown. */
  lemma AddressDefaults(countryCode: string)
    ensures AddressWire(FindByAddressQueryParams(countryCode)) ==
      [("countryCode", Str(countryCode)), ("addressLocality", Null), ("postalCode", Null), ("streetAddress", Null),
       ("providerType", Null), ("locationType", Null), ("serviceType", Null), ("radius", Int(5000)),
       ("limit", Int(15)), ("hideClosedLocations", Bool(false)), ("currentDate", Null)]
  {
  }

  /** The provider and location lists of the examples in tests/tests.py. */
  lemma ExampleValueLists()
    ensures ProviderValues([ProviderType.Express, ProviderType.Parcel]) == ["express", "parcel"]
    ensures LocationValues([LocationType.Locker, LocationType.Pobox, LocationType.PostOffice]) == ["locker", "pobox", "postoffice"]
  {
    var ps := ProviderValues([ProviderType.Express, ProviderType.Parcel]);
    assert ps == [ps[0], ps[1]];
    var ls := LocationValues([LocationType.Locker, LocationType.Pobox, LocationType.PostOffice]);
    assert ls == [ls[0], ls[1], ls[2]];
  }

  /** The address example of tests/tests.py. */
  lemma AddressExample()
    ensures AddressWire(FindByAddressQueryParams(
              countryCode := "DE", addressLocality := Some("Berlin"), postalCode := Some("112233"),
              streetAddress := Some("Frankfurter Landstrasse 107"),
              providerType := Some([ProviderType.Express, ProviderType.Parcel]),
              locationType := Some([LocationType.Locker, LocationType.Pobox, LocationType.PostOffice]),
              serviceType := None, currentDate := Some(IsoDates.CalendarDate(2024, 6, 15)))) ==
      [("countryCode", Str("DE")), ("addressLocality", Str("Berlin")), ("postalCode", Str("112233")),
       ("streetAddress", Str("Frankfurter Landstrasse 107")), ("providerType", StrList(["express", "parcel"])),
       ("locationType", StrList(["locker", "pobox", "postoffice"])), ("serviceType", Null),
       ("radius", Int(5000)), ("limit", Int(15)), ("hideClosedLocations", Bool(false)),
       ("currentDate", Str("2024-06-15"))]
  {
    IsoDates.IsoFormatExample();
    ExampleValueLists();
  }

  // ---------------------------------------------------------------------------
  // Search by geo coordinates.
  // ---------------------------------------------------------------------------

  datatype FindByGeoQueryParams = FindByGeoQueryParams(
    latitude: Number,
    longitude: Number,
    providerType: Option<seq<ProviderType>> := None,
    locationType: Option<seq<LocationType>> := None,
    serviceType: Option<seq<ServiceType>> := None,
    radius: Number := IntNumber(5000),
    limit: int := 15,
    countryCode: Option<string> := None,
    hideClosedLocations: bool := false,
    currentDate: Option<IsoDates.Date> := None)

  /** The dataclass fields in declaration order. */
  function GeoFields(p: FindByGeoQueryParams): seq<Field>
  {
    [Field(LatitudeName, NumberValue(p.latitude)),
     Field(LongitudeName, NumberValue(p.longitude)),
     Field(ProviderTypeName, OptionalProviders(p.providerType)),
     Field(LocationTypeName, OptionalLocations(p.locationType)),
     Field(ServiceTypeName, OptionalServices(p.serviceType)),
     Field(RadiusName, NumberValue(p.radius)),
     Field(LimitName, IntValue(p.limit)),
     Field(CountryCodeName, OptionalStr(p.countryCode)),
     Field(HideClosedLocationsName, BoolValue(p.hideClosedLocations)),
     Field(CurrentDateName, OptionalDate(p.currentDate))]
  }

  /** The request mapping of a geo search: ten keys in declaration order. */
  function GeoWire(p: FindByGeoQueryParams): seq<(string, WireValue)>
  {
    [("latitude", NumberWire(p.latitude)),
     ("longitude", NumberWire(p.longitude)),
     ("providerType", ProvidersOrNull(p.providerType)),
     ("locationType", LocationsOrNull(p.locationType)),
     ("serviceType", ServicesOrNull(p.serviceType)),
     ("radius", NumberWire(p.radius)),
     ("limit", Int(p.limit)),
     ("countryCode", StrOrNull(p.countryCode)),
     ("hideClosedLocations", Bool(p.hideClosedLocations)),
     ("currentDate", DateOrNull(p.currentDate))]
  }

  lemma GeoEntries(p: FindByGeoQueryParams)
    ensures AllWellTyped(GeoFields(p))
    ensures Entries(GeoFields(p)) == GeoWire(p)
  {
    KeyLatitude();
    NumberEntry(LatitudeName, "latitude", p.latitude);
    KeyLongitude();
    NumberEntry(LongitudeName, "longitude", p.longitude);
    KeyProviderType();
    ProvidersEntry(ProviderTypeName, "providerType", p.providerType);
    KeyLocationType();
    LocationsEntry(LocationTypeName, "locationType", p.locationType);
    KeyServiceType();
    ServicesEntry(ServiceTypeName, "serviceType", p.serviceType);
    KeyRadius();
    NumberEntry(RadiusName, "radius", p.radius);
    KeyLimit();
    IntEntry(LimitName, "limit", p.limit);
    KeyCountryCode();
    OptionalStrEntry(CountryCodeName, "countryCode", p.countryCode);
    KeyHideClosedLocations();
    BoolEntry(HideClosedLocationsName, "hideClosedLocations", p.hideClosedLocations);
    KeyCurrentDate();
    DateEntry(CurrentDateName, "currentDate", p.currentDate);
    EntriesDisplay10(
      Field(LatitudeName, NumberValue(p.latitude)),
      Field(LongitudeName, NumberValue(p.longitude)),
      Field(ProviderTypeName, OptionalProviders(p.providerType)),
      Field(LocationTypeName, OptionalLocations(p.locationType)),
      Field(ServiceTypeName, OptionalServices(p.serviceType)),
      Field(RadiusName, NumberValue(p.radius)),
      Field(LimitName, IntValue(p.limit)),
      Field(CountryCodeName, OptionalStr(p.countryCode)),
      Field(HideClosedLocationsName, BoolValue(p.hideClosedLocations)),
      Field(CurrentDateName, OptionalDate(p.currentDate)));
  }

  lemma GeoKeysDistinct(p: FindByGeoQueryParams)
    ensures Dicts.DistinctKeys(GeoWire(p))
  {
  }

  /** The keys of a geo search, in declaration order. */
  const GeoKeys: seq<string> := ["latitude", "longitude", "providerType", "locationType", "serviceType",
                                 "radius", "limit", "countryCode", "hideClosedLocations", "currentDate"]

  /** Every field has its key, whatever the values: a None field is not omitted. */
  lemma GeoWireKeys(p: FindByGeoQueryParams)
    ensures Dicts.Keys(GeoWire(p)) == GeoKeys
  {
  }

  /**
   * `to_request_format` of the geo search: the field loop yields exactly the
   * table of GeoWire.
   */
  method GeoToRequestFormat(p: FindByGeoQueryParams) returns (apiFormat: seq<(string, WireValue)>)
    ensures apiFormat == GeoWire(p)
  {
    GeoEntries(p);
    apiFormat := EncodeFields(GeoFields(p));
    GeoKeysDistinct(p);
    Dicts.FromPairsDistinct(GeoWire(p));
  }

  /** A search giving only the coordinates sends the defaults, the unset country code as null. */
  lemma GeoDefaults(latitude: Number, longitude: Number)
    ensures GeoWire(FindByGeoQueryParams(latitude, longitude)) ==
      [("latitude", NumberWire(latitude)), ("longitude", NumberWire(longitude)), ("providerType", Null),
       ("locationType", Null), ("serviceType", Null), ("radius", Int(5000)), ("limit", Int(15)),
       ("countryCode", Null), ("hideClosedLocations", Bool(false)), ("currentDate", Null)]
  {
  }

  /** The geo example of tests/tests.py, for any pair of floating-point coordinates. */
  lemma GeoExample(latitude: Float64, longitude: Float64)
    ensures GeoWire(FindByGeoQueryParams(
              latitude := FloatNumber(latitude), longitude := FloatNumber(longitude),
              providerType := Some([ProviderType.Express, ProviderType.Parcel]),
              locationType := Some([LocationType.Locker, LocationType.Pobox, LocationType.PostOffice]),
              serviceType := None, currentDate := Some(IsoDates.CalendarDate(2024, 6, 15)))) ==
      [("latitude", Num(latitude)), ("longitude", Num(longitude)),
       ("providerType", StrList(["express", "parcel"])),
       ("locationType", StrList(["locker", "pobox", "postoffice"])), ("serviceType", Null),
       ("radius", Int(5000)), ("limit", Int(15)), ("countryCode", Null), ("hideClosedLocations", Bool(false)),
       ("currentDate", Str("2024-06-15"))]
  {
    IsoDates.IsoFormatExample();
    ExampleValueLists();
  }

  /** The keyword-id example of tests/tests.py. */
  lemma KeywordIdExample()
    ensures KeywordIdToRequestFormat(FindByKeywordIdQueryParams("153", "DE", "112233")) ==
      [("keywordId", Str("153")), ("countryCode", Str("DE")), ("postalCode", Str("112233"))]
  {
  }

  // ---------------------------------------------------------------------------
  // Properties of the encoding rule.
  // ---------------------------------------------------------------------------

  /** A field encodes to null exactly when it holds None: null never stands for a present value. */
  lemma NullIffNone(f: Field)
    requires WellTyped(f)
    ensures EncodeField(f) == Null <==> f.value.NoneValue?
  {
  }

  /**
   * A present provider-type collection encodes to a list of the same length
   * and order whose elements are the members' values; an empty one to the
   * empty list, which is not null.
   */
  lemma ProvidersEncoding(name: string, ps: seq<ProviderType>)
    requires name in EnumFieldNames
    ensures WellTyped(Field(name, Providers(ps)))
    ensures EncodeField(Field(name, Providers(ps))).StrList?
    ensures |EncodeField(Field(name, Providers(ps))).items| == |ps|
    ensures forall i :: 0 <= i < |ps| ==> EncodeField(Field(name, Providers(ps))).items[i] == ps[i].Value()
  {
  }

  lemma LocationsEncoding(name: string, ls: seq<LocationType>)
    requires name in EnumFieldNames
    ensures WellTyped(Field(name, Locations(ls)))
    ensures EncodeField(Field(name, Locations(ls))).StrList?
    ensures |EncodeField(Field(name, Locations(ls))).items| == |ls|
    ensures forall i :: 0 <= i < |ls| ==> EncodeField(Field(name, Locations(ls))).items[i] == ls[i].Value()
  {
  }

  lemma ServicesEncoding(name: string, ss: seq<ServiceType>)
    requires name in EnumFieldNames
    ensures WellTyped(Field(name, Services(ss)))
    ensures EncodeField(Field(name, Services(ss))).StrList?
    ensures |EncodeField(Field(name, Services(ss))).items| == |ss|
    ensures forall i :: 0 <= i < |ss| ==> EncodeField(Field(name, Services(ss))).items[i] == ss[i].Value()
  {
  }

  /** A present date encodes to its `YYYY-MM-DD` rendering, which reads back as the same date. */
  lemma DateEncoding(d: IsoDates.Date)
    ensures WellTyped(Field(CurrentDateName, DateValue(d)))
    ensures EncodeField(Field(CurrentDateName, DateValue(d))) == Str(IsoDates.IsoFormat(d))
    ensures IsoDates.ParseIso(IsoDates.IsoFormat(d)) == Some(d)
  {
    KeyCurrentDate();
    IsoDates.ParseIsoFormat(d);
  }

  // ---------------------------------------------------------------------------
  // The query parameter interface and the response types.
  // ---------------------------------------------------------------------------

  /** The three kinds of query parameters (`QueryParam` subclasses). */
  datatype QueryParam =
    | KeywordIdQuery(keywordId: FindByKeywordIdQueryParams)
    | AddressQuery(address: FindByAddressQueryParams)
    | GeoQuery(geo: FindByGeoQueryParams)

  /** The request mapping of any query parameters. */
  function RequestFormat(q: QueryParam): seq<(string, WireValue)>
  {
    match q
    case KeywordIdQuery(p) => KeywordIdWire(p)
    case AddressQuery(p) => AddressWire(p)
    case GeoQuery(p) => GeoWire(p)
  }

  /** `to_request_format`, dispatched on the kind of parameters. */
  method ToRequestFormat(q: QueryParam) returns (apiFormat: seq<(string, WireValue)>)
    ensures apiFormat == RequestFormat(q)
    ensures Dicts.DistinctKeys(apiFormat)
  {
    match q {
      case KeywordIdQuery(p) =>
        apiFormat := KeywordIdToRequestFormat(p);
        KeywordIdKeysDistinct(p);
      case AddressQuery(p) =>
        apiFormat := AddressToRequestFormat(p);
        AddressKeysDistinct(p);
      case GeoQuery(p) =>
        apiFormat := GeoToRequestFormat(p);
        GeoKeysDistinct(p);
    }
  }

  /** The error body of a failed call. */
  datatype FailureResponse = FailureResponse(status: string, title: Option<string> := None, detail: Option<string> := None)

  /** What a call returns: the located data, or the failure. */
  datatype Payload<T> = Data(data: T) | Failure(failure: FailureResponse)

  /** A call's outcome and whether it failed. */
  datatype DhlResponse<T> = DhlResponse(response: Payload<T>, failed: bool)
  {
    /** The flag agrees with the payload: failed exactly when the payload is a FailureResponse. */
    predicate Consistent()
    {
      failed <==> response.Failure?
    }
  }
}
