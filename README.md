# A verified model of the test framework's API core

This project is a Dafny model of the part of a UI/API test-automation framework
(Playwright and pytest, testing the AirportGap API) that decides things. It covers
five pieces:

- the data records: test context, API response, airport and distance;
- the assertion helper, which passes or fails with a custom or a default message;
- the decision logic of the base API client:
  - URL building, header merging and body preparation;
  - verb dispatch and response-body parsing;
  - the status check and the required-keys check;
- the AirportGap client, which works from the response the API returned:
  - listing airports and their names;
  - checking that required airports exist;
  - reading a distance and checking it against a minimum;
  - looking up an airport by IATA code;
- the test-data loader, with its cache keyed by the normalised file name.

Python values are modelled by the `Json` datatype in `Json.dfy`. Each Python
built-in the code applies to them is a function returning a `Result`. A failing
result names the exception Python would raise: `AttributeError` for `.get` on a
non-dict, `TypeError`, `KeyError`, or `ValueError` from `float`. The client
operations that fetch something return `Result<_, ClientError>`, whose failure
cases are the `AssertionError`s the source raises and the exceptions it lets
propagate. The two checks `VerifyResponseStatus` and `VerifyResponseContainsKeys`
return an `Outcome` (pass, or fail with the error). `GetAirportByIataCode` returns
an `Option`, because the source turns every failure into `None`.

Foreign calls become parameters:

- `json.dumps` and `json.loads` of the base client are the function parameters
  `dumps` and `loads`;
- `float()` on a string is `parseFloat`;
- opening and parsing a data file is the `files` function a `DataLoader` is built
  with;
- the HTTP request itself is not made. `ExecuteRequest` returns the call it would
  make (verb, URL and keyword arguments), and every airports operation takes the
  `APIResponse` the request returned.

Files, one module each:

- `Wrappers.dfy`: `Option`, `Result`, `Outcome`.
- `Strings.dfy`: the `str` methods used (`startswith`, `endswith`, `in`,
  `rstrip`, `lstrip`, `lower`, `upper`).
- `Json.dfy`: values, `.get`, `[]`, `in`, the "missing keys" comprehension, `float()`.
- `Types.dfy`: `src/core/types.py`.
- `Assertions.dfy`: `src/core/assertions.py`.
- `BaseApiClient.dfy`: `src/core/base_api_client.py`.
- `AirportsClient.dfy`: `src/api/airports_client.py`.
- `DataLoader.dfy`: `src/utils/data_loader.py`.

Where the code and its documentation disagree, the model follows the code:

- `_parse_response_body` is documented to return a dict or a string, but
  `json.loads` of the text `null` gives `None`. `NullBodyOnlyFromNullDocument`
  characterises when that happens. The same call also returns lists, numbers and
  booleans, which is why `APIResponse.body` is any `Json`.
- `assert_response_time` fails only when the time is strictly greater than the
  limit, so a time equal to the limit passes.
- `message or default` treats an empty custom message as absent.
- `calculate_distance` has five ways to fail besides its documented ones:
  - `data` is not a dict;
  - `attributes` is a number, a bool or `None`, so `in` raises `TypeError`;
  - `attributes` is a list or a string naming all three fields, so the `in`
    checks pass and `attributes["kilometers"]` raises `TypeError`;
  - `float()` rejects a measurement (`ValueError` or `TypeError`);
  - a relationship is not a dict.

  `DistanceFrom` models each of these.

## Model

| member | source | states |
|---|---|---|
| Types.Duration | src/core/types.py:66-71 | a duration is produced exactly when both times are set and non-zero, and start plus duration is the end time |
| Types.ZeroStartHasNoDuration | src/core/types.py:69 | a start time of 0 counts as unset, so there is no duration |
| Types.IsSuccess | src/core/types.py:90-93 | a response is a success exactly when its status is in the 2xx class (status / 100 == 2) |
| Types.SuccessBoundaries | src/core/types.py:90-93 | 200 and 299 are successes, 199 and 300 are not |
| Types.JsonBody | src/core/types.py:95-100 | the body is returned exactly when it is a dict, and unchanged |
| Types.Attribute | src/core/types.py:115-133 | an accessor raises exactly when attributes is not a dict; otherwise it gives the stored value, or "" when the key is absent |
| Types.Name | src/core/types.py:115-118 | raises exactly when attributes is not a dict; otherwise the value under "name", or "" when absent |
| Types.City | src/core/types.py:120-123 | raises exactly when attributes is not a dict; otherwise the value under "city", or "" when absent |
| Types.Country | src/core/types.py:125-128 | raises exactly when attributes is not a dict; otherwise the value under "country", or "" when absent |
| Types.IataCode | src/core/types.py:130-133 | raises exactly when attributes is not a dict; otherwise the value under "iata", or "" when absent |
| Types.AccessorsOfObject | src/core/types.py:115-133 | name, city, country and iata_code each read their own key with "" as default |
| Types.AccessorsOfNonObject | src/core/types.py:115-133 | with non-dict attributes every accessor raises AttributeError |
| Types.EmptyName | src/core/types.py:116-118 | a name is "" exactly when the key is absent or holds "" |
| Types.IsValidDistance | src/core/types.py:150-153 | a distance is valid exactly when each of its three measurements is positive |
| Types.NonPositiveIsInvalid | src/core/types.py:150-153 | any measurement that is zero or negative makes a distance invalid |
| Assertions.ChooseMessage | src/core/assertions.py:48 | the custom message is used exactly when it is given and non-empty |
| Assertions.AssertEquals | src/core/assertions.py:33-60 | passes exactly when the values are equal; a failure carries the chosen message with expected and actual |
| Assertions.AssertNotEquals | src/core/assertions.py:65-86 | passes exactly when the values differ |
| Assertions.AssertContains | src/core/assertions.py:91-127 | passes exactly when the substring occurs, after lower-casing both operands when case-insensitive |
| Assertions.AssertListContains | src/core/assertions.py:132-159 | passes exactly when the item is an element of the list |
| Assertions.AssertGreaterThan | src/core/assertions.py:164-195 | passes exactly when actual > threshold; a failure reports actual - threshold |
| Assertions.AssertLessThan | src/core/assertions.py:200-226 | passes exactly when actual < threshold |
| Assertions.AssertStatusCode | src/core/assertions.py:231-267 | passes exactly when the codes are equal; a failure reports both codes and attaches the body exactly when it is present and non-empty |
| Assertions.AssertResponseTime | src/core/assertions.py:272-295 | passes exactly when actual <= max |
| Assertions.GreaterThanDifference | src/core/assertions.py:181-187 | a failing greater-than check reports a difference that is not positive |
| Assertions.StrictComparisonsMirror | src/core/assertions.py:181 | greater-than(a, b) passes exactly when less-than(b, a) does, and both fail on equal values |
| Assertions.ResponseTimeIsNotGreater | src/core/assertions.py:286 | the response-time check passes exactly when the strict greater-than check fails, so a time equal to the limit passes |
| Assertions.CustomMessageWins | src/core/assertions.py:48 | a non-empty custom message is the whole failure text |
| Assertions.EmptyCustomMessageFallsBack | src/core/assertions.py:182 | an empty custom message falls back to the default message |
| Assertions.CaseExamples | src/core/assertions.py:110-113 | "KIX" differs from "kix"; "tokyo" occurs in "Tokyo Intl" only case-insensitively |
| Assertions.CaseSensitivePassImpliesInsensitive | src/core/assertions.py:110-113 | every case-sensitive pass is also a case-insensitive pass |
| Assertions.InsensitiveIgnoresCase | src/core/assertions.py:110-113 | the case-insensitive result does not depend on the case of either operand |
| Assertions.GreaterThanExamples | src/core/assertions.py:181 | 5 is not greater than 5, and 5.01 is |
| BaseApiClient.BuildUrl | src/core/base_api_client.py:174-175 | an absolute http or https URL is returned unchanged |
| BaseApiClient.RelativeJoinHasOneSlash | src/core/base_api_client.py:177-178 | a relative URL is the base without trailing '/', one '/', and the path without leading '/' |
| BaseApiClient.JoinIgnoresExtraSlashes | src/core/base_api_client.py:178 | an extra '/' at the end of the base or the start of the path does not change the URL |
| BaseApiClient.BuildUrlIdempotent | src/core/base_api_client.py:164-178 | building a built URL again changes nothing when the stripped base is absolute |
| BaseApiClient.BareSchemeBase | src/core/base_api_client.py:178 | a base of only "http://" loses a '/' and yields a relative URL |
| BaseApiClient.PrepareHeaders | src/core/base_api_client.py:180-199 | the result has the keys of the defaults and the custom headers; custom values override and the other defaults stay |
| BaseApiClient.PrepareBody | src/core/base_api_client.py:201-216 | a JSON argument, even an empty one, wins and is serialised; otherwise the raw data is passed through |
| BaseApiClient.ExecuteRequest | src/core/base_api_client.py:218-262 | succeeds exactly when the upper-cased method is one of the five verbs, with that verb, the URL and the keyword arguments (timeout, headers, and data and params only when given); otherwise fails naming the method |
| BaseApiClient.DispatchIgnoresCase | src/core/base_api_client.py:251-260 | every verb is reached from its name in any case, and no two verbs share a name |
| BaseApiClient.ParseResponseBody | src/core/base_api_client.py:264-287 | unreadable or empty text gives ""; JSON text gives its value; other text is kept as a string |
| BaseApiClient.NullBodyOnlyFromNullDocument | src/core/base_api_client.py:280 | a None body comes only from non-empty text that parses to null |
| BaseApiClient.VerifyResponseStatus | src/core/base_api_client.py:381-400 | passes exactly when the status equals the expected one; a failure reports both and the body |
| BaseApiClient.DefaultStatusIsSuccess | src/core/base_api_client.py:382 | passing with the default expectation means status 200, a success |
| BaseApiClient.StatusChecksAgree | src/core/base_api_client.py:394 | the client's status check and the helper's assert_status_code agree on every response |
| BaseApiClient.NotFoundExample | src/core/base_api_client.py:394-399 | a 404 checked against the default fails reporting 200 and 404 |
| BaseApiClient.VerifyResponseContainsKeys | src/core/base_api_client.py:406-434 | a non-dict body fails; otherwise passes exactly when every required key is present, and a failure lists the missing keys and the available ones |
| Json.Missing | src/core/base_api_client.py:424 | the missing list is never longer than the required list (its contents are stated by the lemmas below) |
| Json.MissingMembers | src/core/base_api_client.py:424 | the missing list holds exactly the required keys that are not in the container |
| Json.MissingCounts | src/core/base_api_client.py:424 | each missing key appears as often as it is required |
| Json.MissingInOrder | src/core/base_api_client.py:424 | the missing keys keep the order in which they are required |
| Json.NothingMissing | src/core/base_api_client.py:424-426 | nothing is missing exactly when every required key is present |
| Json.MissingSnoc | src/core/base_api_client.py:424 | one more required key adds at most that key at the end of the missing list |
| Json.ToFloat | src/api/airports_client.py:298-300 | numbers are kept, bools become 1.0 or 0.0, strings go through the parser or raise ValueError, anything else raises TypeError |
| AirportsClient.DataOf | src/api/airports_client.py:64-76 | succeeds exactly when the status is 200, the body is a dict and it has `data`, giving that value; each failure is the first check that fails |
| AirportsClient.AirportOf | src/api/airports_client.py:86-92 | an element becomes an airport exactly when it is a dict, with id, type and attributes defaulting to "", "" and {} |
| AirportsClient.MappedAirports | src/api/airports_client.py:84-96 | the loop's airports are at most as many as the elements |
| AirportsClient.MappedAirportsCount | src/api/airports_client.py:84-96 | of N elements with M that are not dicts, exactly N - M airports come out |
| AirportsClient.MappedAirportsConcat | src/api/airports_client.py:84-96 | mapping respects concatenation, so airports keep the order of their elements |
| AirportsClient.MappedAirportsSingle | src/api/airports_client.py:86-96 | one element gives its airport, or nothing when it is not a dict |
| AirportsClient.AirportRoundTrip | src/api/airports_client.py:86-92 | a sample record shaped like the list endpoint's maps to an airport whose accessors read its name and code back |
| AirportsClient.AirportsOf | src/api/airports_client.py:44-111 | succeeds exactly when the response checks pass and `data` is a list; the airports are those of its dict elements, in order |
| AirportsClient.EmptyDataGivesNoAirports | src/api/airports_client.py:84-107 | an empty `data` list gives no airports and no error |
| AirportsClient.GetAllAirports | src/api/airports_client.py:44-111 | the loop computes exactly AirportsOf |
| AirportsClient.AirportsCount | src/api/airports_client.py:114-135 | the count is the number of dict elements of `data`, N - M |
| AirportsClient.NamesOf | src/api/airports_client.py:152 | succeeds exactly when every airport's attributes is a dict; the names are the truthy names of the airports, at most one per airport |
| AirportsClient.NamesOfSnoc | src/api/airports_client.py:152 | the names of a list are those of all but its last airport, followed by the last name when it is truthy |
| AirportsClient.NamesOfConcat | src/api/airports_client.py:152 | names keep the order of their airports |
| AirportsClient.AirportNames | src/api/airports_client.py:138-159 | a failed fetch propagates; otherwise the names of the fetched airports |
| AirportsClient.CheckRequired | src/api/airports_client.py:182-190 | records the result of every required lookup and collects exactly the missing names, in order |
| AirportsClient.VerifyAirportsExist | src/api/airports_client.py:162-220 | fails exactly when some required name is absent, reporting all missing names and all available ones; otherwise every required name maps to true |
| AirportsClient.ExistenceExample | src/api/airports_client.py:182-190 | of A, B and Z against names A and B, only Z is missing |
| AirportsClient.ExistenceIsCaseSensitive | src/api/airports_client.py:183 | "kansai" is not found among the name "Kansai" |
| AirportsClient.PlaceholderAirport | src/api/airports_client.py:282-292 | an endpoint airport exists exactly when the relationship data is a dict; its attributes are exactly {"iata": code}, and id and type come from the relationship data or fall back to the code and "airport" |
| AirportsClient.RelationshipData | src/api/airports_client.py:274-279 | each of the three `.get` steps raises AttributeError exactly when it is applied to a non-dict; an absent key gives {}; otherwise the endpoint's `data` value |
| AirportsClient.Measurement | src/api/airports_client.py:298-300 | non-dict attributes raise TypeError, an absent field raises KeyError naming it, otherwise float() of the field's value; a number is read as itself |
| AirportsClient.DistanceFrom | src/api/airports_client.py:261-301 | succeeds exactly when data is a dict, its attributes support `in` and miss no field, both relationship data are dicts and the three measurements convert; each failure is that of the first failing step, in source order: AttributeError when data is not a dict, TypeError when attributes does not support `in`, the missing fields when some are missing, then the error of the from and to relationship data, AttributeError when either is not a dict, and the error of the first measurement that does not convert; on success the endpoints are the placeholder airports of the relationship data, carrying the requested codes, and the three measurements are float() of their attributes |
| AirportsClient.WellFormedDistanceSucceeds | src/api/airports_client.py:261-301 | dict attributes whose three fields convert with float(), and dict relationship data at both ends, always give a distance whose measurements are those conversions |
| AirportsClient.ListAttributesRaiseTypeError | src/api/airports_client.py:266-298 | whenever both relationship data are dicts, a list naming the three fields passes the missing-field check and then raises TypeError on indexing |
| AirportsClient.NoAttributesMissesAllFields | src/api/airports_client.py:262-271 | without attributes all three fields are reported missing, in order |
| AirportsClient.EmptyAttributesMissAll | src/api/airports_client.py:265-268 | against {} every distance field is missing |
| AirportsClient.NoRelationshipsUsesCodes | src/api/airports_client.py:274-292 | without relationships both endpoints are identified by the requested codes, of type "airport" |
| AirportsClient.CalculateDistance | src/api/airports_client.py:223-344 | the response checks fail first; otherwise the distance read from `data` |
| AirportsClient.VerifyDistanceGreaterThan | src/api/airports_client.py:347-391 | returns the kilometres exactly when the distance is computed and strictly above the minimum; otherwise the distance error or an assertion failure with the custom message |
| AirportsClient.IataScan | src/api/airports_client.py:408-414 | a found airport is one of the list and its code matches the requested one case-insensitively |
| AirportsClient.IataScanFindsFirst | src/api/airports_client.py:408-411 | a found airport is the first whose code matches case-insensitively, and every earlier airport had a string code that did not match |
| AirportsClient.IataScanNone | src/api/airports_client.py:408-414 | when every code is a string, None means no airport matches |
| AirportsClient.IataScanFindsMatch | src/api/airports_client.py:408-411 | a match preceded only by airports with string codes is found, whatever airports follow it |
| AirportsClient.IataScanNoneExactly | src/api/airports_client.py:408-414 | None exactly when every matching airport comes after one whose code cannot be upper-cased |
| AirportsClient.MalformedAfterMatchExample | src/api/airports_client.py:408-411 | KIX followed by an airport with null attributes is still found for "kix" |
| AirportsClient.IataScanIgnoresCase | src/api/airports_client.py:409 | the lookup does not depend on the case of the requested code |
| AirportsClient.GetAirportByIataCode | src/api/airports_client.py:393-418 | a failed fetch gives None; otherwise the loop returns the first match of the scan, None when there is no match, or when an airport before every match has a code that cannot be upper-cased |
| DataLoading.YamlName | src/utils/data_loader.py:53-54 | the name ends in .yaml or .yml; it is kept when it already does and gets .yaml otherwise |
| DataLoading.JsonName | src/utils/data_loader.py:104-105 | the name ends in .json; it is kept when it already does and gets .json otherwise |
| DataLoading.CacheKey | src/utils/data_loader.py:53-105 | a YAML load is cached under a name ending in .yaml or .yml, a JSON load under one ending in .json, so the extension of a key tells its format |
| DataLoading.NamesIdempotent | src/utils/data_loader.py:53-54 | normalising a name twice is normalising it once |
| DataLoading.NamesDisjoint | src/utils/data_loader.py:57 | a YAML name never equals a JSON name, so the shared cache never mixes formats |
| DataLoading.JsonNameIsNotYaml | src/utils/data_loader.py:104-105 | a name ending in .json ends in neither YAML extension |
| DataLoading.FixedNames | src/utils/data_loader.py:152 | "users" and "api_expected" are read as users.yaml and api_expected.yaml |
| DataLoading.Credentials | src/utils/data_loader.py:154-159 | succeeds exactly when the user type is present with a username and a password, giving exactly those two; failures are KeyError or TypeError |
| DataLoading.UnknownUserType | src/utils/data_loader.py:155-165 | an unknown user type raises a KeyError naming it |
| DataLoading.ExpectedAirports | src/utils/data_loader.py:191-198 | succeeds exactly when airportgap_api.airports exists, giving it |
| DataLoading.ExpectedDistance | src/utils/data_loader.py:200-212 | succeeds exactly when airportgap_api.distance_calculations holds the route, giving it |
| DataLoading.DataLoader.constructor | src/utils/data_loader.py:26-35 | an absent or empty base path becomes "testdata"; the cache starts empty |
| DataLoading.DataLoader.Load | src/utils/data_loader.py:37-137 | the result is always what the file holds; the cache gains that document exactly when caching is on and the load succeeds, and keeps every entry consistent with its file |
| DataLoading.DataLoader.LoadYaml | src/utils/data_loader.py:37-86 | as Load, for the YAML-normalised name |
| DataLoading.DataLoader.LoadJson | src/utils/data_loader.py:88-137 | as Load, for the JSON-normalised name |
| DataLoading.DataLoader.GetUserCredentials | src/utils/data_loader.py:139-165 | the credentials looked up in users.yaml; a load failure or a lookup failure propagates |
| DataLoading.DataLoader.GetApiExpectations | src/utils/data_loader.py:167-189 | the entry for the API in api_expected.yaml |
| DataLoading.DataLoader.GetExpectedAirports | src/utils/data_loader.py:191-198 | the expected airports from api_expected.yaml |
| DataLoading.DataLoader.GetExpectedDistanceData | src/utils/data_loader.py:200-212 | the expected data for the route from api_expected.yaml |
| DataLoading.DataLoader.ClearCache | src/utils/data_loader.py:214-217 | the cache is empty afterwards |
| DataLoading.LoadTestData | src/utils/data_loader.py:246-260 | "json" in any case selects the JSON load, anything else (the default "yaml" included) the YAML load; the cache gains the loaded document exactly when the load succeeds |

## Left out

- The HTTP request, Playwright's request context and its start and stop are not
  modelled. `_make_request` is not modelled beyond its parts: it times the call,
  builds the `APIResponse` and logs the request and the response.
- The `get`, `post`, `put` and `delete` wrappers and the client constructors only
  forward their arguments, so they are not modelled.
- Logging, Allure attachments, `get_assertion_helper` and the global
  `data_loader` instance are not modelled; they do not affect results.
- The text of error messages is not produced. Each failure carries the structured
  data its message is built from. AirportsClient.VerifyDistanceGreaterThan's
  custom message leaves out the two formatted distances.
- BaseApiClient.BuildUrl: the base URL is a parameter, not read from the settings
  (`src/config/settings.py` is not part of this model).
- BaseApiClient.ParseResponseBody: on a decode error the source reads
  `response.text()` a second time. The model assumes both reads give the same
  text.
- Strings.Lower and Strings.Upper fold only ASCII letters. Python's Unicode case
  mapping (for example 'ß'.upper() == "SS") is not modelled.
- Numbers are mathematical reals. Integer and float JSON numbers are not told
  apart, and there is no NaN or infinity. Comparisons between values of different
  Python types (such as 1 == True) are not modelled.
- Dictionary order is not modelled: dicts are maps. The available keys in a
  MissingKeys failure are a set, where the source prints a list in insertion
  order.
- DataLoading.DataLoader: the files are a fixed function of the base path and the
  name, so a file that changes on disk after it was cached is not modelled (the
  source would keep serving the stale copy). The joining of the base path and the
  name (`Path(base) / name`) is done inside that function.
- DataLoading.DataLoader: the source hands out the cached document itself, not a
  copy, so a caller that changes a returned document changes what later loads
  (and `get_api_expectations`) return. Documents are values here, so this
  aliasing is not modelled.
- `list_available_files` is not modelled: it lists a directory.
- The module-level `get_user_credentials` and `get_api_expectations` only
  forward to the global instance, so they are not modelled.
- `TestData` and the other type aliases, and `TestContext` fields that nothing
  computes from, are carried as plain data.
- The km/miles ratio and the expected counts that the tests assert are outside
  this core.
