# DHL location finder client — Dafny model

This project models the core of `dhl-location-finder-py`, a small client for DHL's Location Finder REST API. It covers two parts.

- **The query definitions.** These are:
  - the snake_case to camelCase key conversion;
  - the provider, location and service type enumerations with their wire strings;
  - the three query-parameter dataclasses (search by keyword id, by address, by geo coordinates) and their `to_request_format` encodings;
  - the `FailureResponse` and `DhlResponse` result types.
- **The client.** This covers:
  - normalising the base URL;
  - the API-key header;
  - the four endpoints and the mode each one parses in;
  - the branch that turns a response into a success or a failure envelope.

## Modules

- `Wrappers` (`wrappers.dfy`): `Option`, Python's `Optional`/`None`.
- `Dicts` (`dicts.dfy`): a Python `dict` with string keys. It is an insertion-ordered list of pairs:
  - assigning an existing key keeps its place;
  - assigning a new key appends it;
  - `FromPairs` is `dict(...)` built from assignments in order.
- `Casing` (`casing.dfy`): `_snake_to_camel_case`.
  - `Camel` is the specification: split on `_`, keep the first component, capitalise the rest, join.
  - `Scan` is an independent character-by-character reference definition, proved equal to `Camel`.
  - `SnakeToCamelCase` is the method with the component loop.
- `IsoDates` (`iso_dates.dfy`): `datetime.date` values and `str(date)`, i.e. `YYYY-MM-DD`.
  - It includes a parser, so that the rendering can be proved to read back as the same date.
- `Definitions` (`definitions.dfy`): the enumerations, the parameter datatypes, the encoding rule and the response types.
  - `EncodeFields` is the shared field loop of `to_request_format`. It assigns each field's camelCase key to:
    - null for `None`;
    - a list of values for an enum collection;
    - ISO text for the date;
    - the value itself otherwise.
  - `AddressWire`, `GeoWire` and `KeywordIdWire` are the resulting tables, written out key by key.
- `Client` (`client.dfy`): the class `DhlLocationFinderClient`, with HTTP and JSON decoding taken as parameters.
  - `send` is the GET request. It gives no answer when the transport fails.
  - A `BodyParser` gives what `DhlLocation(**data)`, `FailureResponse(**data)` and `data.get("locations", [])` produce. Each may fail.
  - Where the Python code raises an exception, the call's outcome is `Raised`.

Parameter objects are Dafny values, so encoding cannot change them. Two encodings of the same parameters are therefore equal.

## Model

| member | source | states |
|---|---|---|
| Casing.SnakeToCamelCase | src/definitions.py:11-21 | the component loop yields `Camel(s)`, and the result contains no `_` |
| Casing.CamelIsScan | src/definitions.py:11-21 | the split/capitalise/join definition agrees with a character-by-character scan (first component verbatim, each later one with its first letter upper-cased and the rest lower-cased) |
| Casing.CamelHasNoUnderscore | src/definitions.py:13-19 | the converted name never contains `_` |
| Casing.CamelKeepsPlainName | src/definitions.py:13-18 | a name without `_` is returned unchanged |
| Casing.CamelIdempotent | src/definitions.py:11-21 | converting a converted name changes nothing |
| Casing.CamelAtUnderscore | src/definitions.py:13-19 | `s_t` converts to the conversion of `s` followed by every component of `t` capitalised |
| Casing.CamelDoubleUnderscore | src/definitions.py:13-19 | an empty component (`a__b`) contributes nothing |
| Casing.CamelLeadingUnderscore | src/definitions.py:13-19 | a leading `_` makes the first component empty, so every real component is capitalised |
| Casing.CamelTwoWords | src/definitions.py:13-19 | `a_b` converts to `a` followed by `b` capitalised |
| Casing.CamelThreeWords | src/definitions.py:13-19 | `a_b_c` converts to `a` followed by `b` and `c` capitalised |
| Casing.JoinSplit | src/definitions.py:13 | joining the `_`-split components with `_` gives the string back |
| Casing.SplitJoin | src/definitions.py:13 | splitting a `_`-join of components free of `_` gives the components back |
| Casing.SplitAtUnderscore | src/definitions.py:13 | splitting `s_t` gives the components of `s` then those of `t` |
| IsoDates.IsoFormat | src/definitions.py:109-110 | `str(date)` is ten characters: four digits, `-`, two digits, `-`, two digits |
| IsoDates.ParseIsoFormat | src/definitions.py:109-110 | reading the rendering of a date gives back the same date |
| IsoDates.IsoFormatParse | src/definitions.py:109-110 | every well-formed `YYYY-MM-DD` text naming a valid date is that date's rendering |
| IsoDates.IsoFormatInjective | src/definitions.py:109-110 | distinct dates render differently |
| Dicts.PutLookup | src/definitions.py:106-112 | after `d[k] = v`, `k` maps to `v` and every other key keeps its value |
| Dicts.PutNewKey | src/definitions.py:106-112 | assigning a new key appends it at the end |
| Dicts.PutExistingKey | src/definitions.py:106-112 | assigning an existing key replaces its value in place |
| Dicts.FromPairsDistinct | src/definitions.py:83-85 | with pairwise distinct keys, no assignment overwrites another, so the dict is the pair list in order |
| Dicts.LookupEntry | src/definitions.py:83-85 | with distinct keys, every entry is found by its key |
| Definitions.ProviderTypeRoundTrip | src/definitions.py:24-26 | each provider type has its own value string, and that string looks the member up |
| Definitions.LocationTypeRoundTrip | src/definitions.py:29-35 | each location type has its own value string, and that string looks the member up |
| Definitions.ProviderValueInjective | src/definitions.py:24-26 | distinct provider types have distinct value strings |
| Definitions.LocationValueInjective | src/definitions.py:29-35 | distinct location types have distinct value strings |
| Definitions.ServiceValueInjective | src/definitions.py:38-66 | distinct service types have distinct value strings, so an encoded list names its members unambiguously |
| Definitions.EncodeFields | src/definitions.py:102-114 | the field loop with dict assignment yields the dict of the per-field entries (camelCase key, encoded value) |
| Definitions.NullIffNone | src/definitions.py:105-112 | a field encodes to null exactly when its value is `None` |
| Definitions.ProvidersEncoding | src/definitions.py:107-108 | a present provider-type collection encodes to a list of the same length and order of value strings (empty gives `[]`, not null) |
| Definitions.LocationsEncoding | src/definitions.py:107-108 | the same for location types |
| Definitions.ServicesEncoding | src/definitions.py:135-136 | the same for service types |
| Definitions.DateEncoding | src/definitions.py:109-110 | a present date encodes to its ISO text, which reads back as the same date |
| Definitions.KeyHideClosedLocations | src/definitions.py:99 | `hide_closed_locations` becomes the key `hideClosedLocations` |
| Definitions.KeyKeywordId | src/definitions.py:78 | `keyword_id` becomes the key `keywordId` |
| Definitions.KeyCurrentDate | src/definitions.py:100 | `current_date` becomes `currentDate` and takes the date branch |
| Definitions.KeyProviderType | src/definitions.py:94 | `provider_type` becomes `providerType` and takes the enum-list branch |
| Definitions.KeywordIdToRequestFormat | src/definitions.py:82-85 | the keyword-id encoding is exactly `keywordId`, `countryCode`, `postalCode`, each holding its field's value unchanged |
| Definitions.KeywordIdKeysDistinct | src/definitions.py:82-85 | the three keys are pairwise distinct |
| Definitions.KeywordIdExample | src/definitions.py:82-85 | keyword `153`, country `DE`, postal code `112233` encode as in the project's test |
| Definitions.AddressEntries | src/definitions.py:88-114 | the per-field entries of an address search are the eleven-entry table `AddressWire` |
| Definitions.AddressToRequestFormat | src/definitions.py:102-114 | the address encoding is `AddressWire`: eleven keys in declaration order, `None` as null, collections as value lists, the date as ISO text |
| Definitions.AddressKeysDistinct | src/definitions.py:102-114 | the eleven address keys are pairwise distinct |
| Definitions.AddressWireKeys | src/definitions.py:102-114 | the address encoding has exactly the eleven keys in declaration order, whatever the values |
| Definitions.AddressDefaults | src/definitions.py:90-100 | with only a country code: radius 5000, limit 15, `hideClosedLocations` false, every other field null |
| Definitions.AddressExample | src/definitions.py:102-114 | the project's address test case encodes to the expected mapping, including `2024-06-15` |
| Definitions.GeoEntries | src/definitions.py:117-142 | the per-field entries of a geo search are the ten-entry table `GeoWire` |
| Definitions.GeoToRequestFormat | src/definitions.py:130-142 | the geo encoding is `GeoWire`: ten keys in declaration order, `None` as null, collections as value lists, the date as ISO text |
| Definitions.GeoKeysDistinct | src/definitions.py:130-142 | the ten geo keys are pairwise distinct |
| Definitions.GeoWireKeys | src/definitions.py:130-142 | the geo encoding has exactly the ten keys in declaration order, whatever the values |
| Definitions.GeoDefaults | src/definitions.py:119-128 | with only coordinates: radius 5000, limit 15, `countryCode` null, `hideClosedLocations` false |
| Definitions.GeoExample | src/definitions.py:130-142 | the project's geo test case encodes to the expected mapping, for any floating-point coordinates |
| Definitions.ToRequestFormat | src/definitions.py:69-73 | `to_request_format` of any query parameters gives that kind's table, with distinct keys |
| Client.NormalizeUrl | src/client.py:20 | the stored URL ends in `/`; it equals the input exactly when the input already ends in `/`; otherwise one character is appended |
| Client.NormalizeIdempotent | src/client.py:20 | normalising a normalised URL changes nothing |
| Client.DefaultApiUrlNormalized | src/client.py:29 | the default `https://api.dhl.com/` is stored unchanged |
| Client.ParseAll | src/client.py:44 | the list comprehension parses every element in order, and it succeeds exactly when every element parses |
| Client.Envelope | src/client.py:41-56 | status 200 gives `failed` false and the data (one location per `locations` element in order in list mode, a single location otherwise); any other status gives `failed` true and the parsed failure; a body that does not parse raises (a `locations` value that iteration fails on, such as `null`, a number or a boolean; an element or body that is not a location, such as an element that is not a mapping; a failure body that is not a `FailureResponse`); whatever is returned has its flag agreeing with its payload |
| Client.MissingLocationsIsEmpty | src/client.py:43-44 | in list mode, a body without `locations` yields the empty list |
| Client.Answer | src/client.py:35-56 | a transport error raises; an answer goes through the envelope |
| Client.LastSegment | src/client.py:86 | the text after the last `/`: a suffix of the URL with no `/`, preceded by a `/` unless it is the whole URL |
| Client.LastSegmentAfterSlash | src/client.py:86 | after a `/`, a text without `/` is exactly the last segment |
| Client.LocationIdLastSegment | src/client.py:86 | a location id without `/` is appended verbatim as the last path segment |
| Client.LocationIdWithSlash | src/client.py:86 | the id is not percent-encoded, so an id containing `/` (`a/b`) is split across segments |
| Client.DhlLocationFinderClient.constructor | src/client.py:18-20 | keeps the key and stores the normalised URL, which ends in `/` |
| Client.DhlLocationFinderClient.RequestHeaders | src/client.py:22-25 | the headers have exactly one key, `DHL-API-Key`, holding the API key |
| Client.DhlLocationFinderClient.CallEndpoint | src/client.py:32-56 | sends the endpoint with the API-key header and the encoded parameters (none when absent), then returns the envelope of the response (raising when the transport or the parsing fails), whose flag agrees with its payload |
| Client.DhlLocationFinderClient.FindByAddress | src/client.py:58-64 | requests `find-by-address` with the address encoding, in list mode |
| Client.DhlLocationFinderClient.FindByGeo | src/client.py:66-72 | requests `find-by-geo` with the geo encoding, in list mode |
| Client.DhlLocationFinderClient.FindByKeywordId | src/client.py:74-80 | requests `find-by-keyword-id` with the keyword-id encoding, in single-object mode |
| Client.DhlLocationFinderClient.FindByLocationId | src/client.py:82-88 | requests `locations/<id>` with no query parameters, in single-object mode |

## Left out

- Client.Envelope: exceptions are represented only as the outcome `Raised`, without their type or message. Which bodies fail to parse is decided by the `BodyParser` parameter and is not modelled further.
- HTTP and JSON are left out:
  - the GET request (`requests.get`) is the function parameter `send`;
  - decoding a response body and building `DhlLocation` or `FailureResponse` from it is a `BodyParser` of uninterpreted functions.
- `src/schemas.py` is not part of this model. A location is an opaque type parameter `L`.
- Floats are opaque 64-bit patterns (`Float64`), because nothing does arithmetic on them. The float-typed fields `radius`, `latitude` and `longitude` are a `Number`: a whole number (the default `5000` is a Python `int`) or a float.
- `Iterable[...]` collections are modelled as sequences in iteration order. Iterators that can be consumed only once are not modelled.
- Python does not check the declared field types at run time; the model does. A field holding a value of another type than declared is not modelled.
- Looking up a `ServiceType` by its value string (`ServiceType(s)`) is not modelled: the round-trip proof over its 28 strings is too costly. The enum lookup is modelled only for `ProviderType` and `LocationType`. Neither core file calls the lookup. The service types' value strings and their injectivity are modelled.
- Casing: upper- and lower-casing (`str.capitalize`) is modelled for ASCII letters only. Other characters are left as they are.
- Dates: only the `YYYY-MM-DD` rendering of `str(date)` is modelled, for years 1 to 9999.
- Definitions.DateEncoding: a `datetime.datetime` is also accepted for `current_date`, since it is a subclass of `date`. `str()` then renders it as `YYYY-MM-DD HH:MM:SS` (with microseconds and a UTC offset when present), which is not a plain date. The model holds only plain dates, so this claim and the "date as ISO text" entries of `AddressWire` and `GeoWire` cover only `date` values.
- Client.LocationIdLastSegment: before sending, `requests` takes a `?` in the id as the start of the query, and drops a `#` and all that follows. The model does not cover URL parsing.
- Dataclass reflection (`fields(self)`, `__getattribute__`) is modelled by listing each dataclass's fields in declaration order explicitly.
- Client.DhlLocationFinderClient.constructor: the fields are immutable. Reassigning `api_url` after construction, which Python allows, is not modelled.
- Only `DhlLocationFinderClient`'s constructor is modelled. The abstract base class `_DhlClient` is folded into it.
