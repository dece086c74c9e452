/**
 * The orchestration of `src/api/airports_client.py`, from the response of the API
 * onwards: each operation takes the `APIResponse` its request produced (the request
 * itself is not modelled) and does what the client does with it.
 */
module AirportsClient {
  import opened Wrappers
  import opened Strings
  import opened Json
  import opened Types
  import opened Assertions
  import opened BaseApiClient

  /** A Python exception as the error of an API operation. */
  function Lift<T>(r: Result<T, PyError>): (l: Result<T, ClientError>)
    ensures l.Success? <==> r.Success?
    ensures l.Success? ==> l.value == r.value
    ensures l.Failure? ==> l.error == Raised(r.error)
  {
    match r
    case Success(v) => Success(v)
    case Failure(e) => Failure(Raised(e))
  }

  /**
   * The steps both operations start with: status 200, a dict body, a `data` key;
   * then the value under `data`.
   */
  function DataOf(response: APIResponse): (r: Result<Json, ClientError>)
    ensures r.Success? <==> response.statusCode == 200 && response.body.JObject?
                            && "data" in response.body.fields
    ensures r.Success? ==> r.value == response.body.fields["data"]
    ensures response.statusCode != 200 ==>
      r == Failure(StatusMismatch(200, response.statusCode, response.body))
    ensures response.statusCode == 200 && !response.body.JObject? ==>
      r == Failure(BodyNotObject(response.body))
    ensures response.statusCode == 200 && response.body.JObject? && "data" !in response.body.fields ==>
      r == Failure(MissingKeys(["data"], response.body.fields.Keys))
  {
    var status := VerifyResponseStatus(response, 200);
    if status.Fail? then Failure(status.error)
    else if !response.body.JObject? then Failure(BodyNotObject(response.body))
    else
      var keys := VerifyResponseContainsKeys(response, ["data"]);
      assert ["data"] == [] + ["data"];
      MissingSnoc([], "data", response.body);
      if keys.Fail? then Failure(keys.error)
      else Success(response.body.fields["data"])
  }

  // ---------------------------------------------------------------- listing airports

  /**
   * One element of `data` as an airport, each field defaulting when absent. Only a
   * dict has `.get`: any other element raises, and the loop drops it.
   */
  function AirportOf(element: Json): (r: Option<Airport>)
    ensures r.Some? <==> element.JObject?
    ensures r.Some? ==> r.value.id == if "id" in element.fields then element.fields["id"] else JString("")
    ensures r.Some? ==> r.value.airportType == if "type" in element.fields then element.fields["type"] else JString("")
    ensures r.Some? ==> r.value.attributes == if "attributes" in element.fields then element.fields["attributes"] else JObject(map[])
  {
    match element
    case JObject(m) =>
      Some(Airport(Get(element, "id", JString("")).value,
                   Get(element, "type", JString("")).value,
                   Get(element, "attributes", JObject(map[])).value))
    case _ => None
  }

  /** The airports the loop of `get_all_airports` builds from the `data` elements. */
  function MappedAirports(elements: seq<Json>): (r: seq<Airport>)
    ensures |r| <= |elements|
    decreases |elements|
  {
    if elements == [] then []
    else
      var last := elements[|elements| - 1];
      MappedAirports(elements[..|elements| - 1]) + (if last.JObject? then [AirportOf(last).value] else [])
  }

  /** The number of elements that are not dicts. */
  function Malformed(elements: seq<Json>): nat
    decreases |elements|
  {
    if elements == [] then 0
    else Malformed(elements[..|elements| - 1]) + (if elements[|elements| - 1].JObject? then 0 else 1)
  }

  /** Of N elements with M malformed ones, exactly N - M airports come out. */
  lemma {:induction false} MappedAirportsCount(elements: seq<Json>)
    ensures Malformed(elements) <= |elements|
    ensures |MappedAirports(elements)| == |elements| - Malformed(elements)
    decreases |elements|
  {
    if elements != [] {
      MappedAirportsCount(elements[..|elements| - 1]);
    }
  }

  /** Mapping respects concatenation, so the airports come out in the order of their elements. */
  lemma {:induction false} MappedAirportsConcat(xs: seq<Json>, ys: seq<Json>)
    ensures MappedAirports(xs + ys) == MappedAirports(xs) + MappedAirports(ys)
    decreases |ys|
  {
    if ys == [] {
      assert xs + ys == xs;
    } else {
      var ys' := ys[..|ys| - 1];
      assert (xs + ys)[..|xs + ys| - 1] == xs + ys';
      MappedAirportsConcat(xs, ys');
    }
  }

  /** A single element gives its airport, or nothing when it is not a dict. */
  lemma MappedAirportsSingle(element: Json)
    ensures MappedAirports([element]) == if element.JObject? then [AirportOf(element).value] else []
  {
  }

  /** A sample record shaped like the list endpoint's maps to an airport whose accessors read it back. */
  lemma AirportRoundTrip()
    ensures var element := JObject(map[
              "id" := JString("1"), "type" := JString("airport"),
              "attributes" := JObject(map["name" := JString("X"), "iata" := JString("XXX")])]);
      && MappedAirports([element]) == [AirportOf(element).value]
      && Name(AirportOf(element).value) == Success(JString("X"))
      && IataCode(AirportOf(element).value) == Success(JString("XXX"))
  {
  }

  /** `get_all_airports`: the checks on the response, then the `data` list as airports. */
  function AirportsOf(response: APIResponse): (r: Result<seq<Airport>, ClientError>)
    ensures r.Success? <==> DataOf(response).Success? && DataOf(response).value.JArray?
    ensures DataOf(response).Failure? ==> r == Failure(DataOf(response).error)
    ensures DataOf(response).Success? && !DataOf(response).value.JArray? ==>
      r == Failure(DataNotList(DataOf(response).value))
    ensures r.Success? ==> r.value == MappedAirports(DataOf(response).value.elems)
  {
    var data := DataOf(response);
    if data.Failure? then Failure(data.error)
    else if !data.value.JArray? then Failure(DataNotList(data.value))
    else Success(MappedAirports(data.value.elems))
  }

  /** An empty `data` list gives no airports and no error. */
  lemma EmptyDataGivesNoAirports(response: APIResponse)
    requires DataOf(response) == Success(JArray([]))
    ensures AirportsOf(response) == Success([])
  {
  }

  method GetAllAirports(response: APIResponse) returns (r: Result<seq<Airport>, ClientError>)
    ensures r == AirportsOf(response)
  {
    var data := DataOf(response);
    if data.Failure? {
      return Failure(data.error);
    }
    var airportsData := data.value;
    if !airportsData.JArray? {
      return Failure(DataNotList(airportsData));
    }
    var elements := airportsData.elems;
    var airports: seq<Airport> := [];
    var i := 0;
    while i < |elements|
      invariant 0 <= i <= |elements|
      invariant airports == MappedAirports(elements[..i])
    {
      var element := elements[i];
      assert elements[..i + 1][..i] == elements[..i];
      var id := Get(element, "id", JString(""));
      var airportType := Get(element, "type", JString(""));
      var attributes := Get(element, "attributes", JObject(map[]));
      if id.Success? && airportType.Success? && attributes.Success? {
        airports := airports + [Airport(id.value, airportType.value, attributes.value)];
      }
      // otherwise `.get` raised: the element is logged and skipped
      i := i + 1;
    }
    assert elements[..i] == elements;
    return Success(airports);
  }

  /** `get_airports_count`: how many airports were retrieved. */
  function AirportsCount(response: APIResponse): (r: Result<nat, ClientError>)
    ensures r.Success? <==> AirportsOf(response).Success?
    ensures r.Success? ==>
      var elements := DataOf(response).value.elems;
      r.value == |elements| - Malformed(elements)
  {
    match AirportsOf(response)
    case Failure(e) => Failure(e)
    case Success(airports) =>
      MappedAirportsCount(DataOf(response).value.elems);
      Success(|airports|)
  }

  // ---------------------------------------------------------------- names

  /** `[a.name for a in airports if a.name]`, which raises if some attributes is not a dict. */
  function NamesOf(airports: seq<Airport>): (r: Result<seq<Json>, ClientError>)
    ensures r.Success? <==> forall a :: a in airports ==> a.attributes.JObject?
    ensures r.Failure? ==> r.error == Raised(AttributeError)
    ensures r.Success? ==> |r.value| <= |airports|
    ensures r.Success? ==> forall n :: n in r.value <==>
              Truthy(n) && exists a :: a in airports && Name(a) == Success(n)
    decreases |airports|
  {
    if airports == [] then Success([])
    else
      var init, last := airports[..|airports| - 1], airports[|airports| - 1];
      assert airports == init + [last];
      match Name(last)
      case Failure(e) => Failure(Raised(e))
      case Success(n) =>
        match NamesOf(init)
        case Failure(e) => Failure(e)
        case Success(names) => Success(names + (if Truthy(n) then [n] else []))
  }

  /** The names of a non-empty list are those of all but its last airport, then the last one's name if truthy. */
  lemma NamesOfSnoc(airports: seq<Airport>)
    requires airports != [] && NamesOf(airports).Success?
    ensures var init, last := airports[..|airports| - 1], airports[|airports| - 1];
      && NamesOf(init).Success? && Name(last).Success?
      && NamesOf(airports).value
           == NamesOf(init).value + (if Truthy(Name(last).value) then [Name(last).value] else [])
  {
    assert airports[|airports| - 1] in airports;
  }

  /** Names come out in the order of their airports. */
  lemma {:induction false} NamesOfConcat(xs: seq<Airport>, ys: seq<Airport>)
    requires NamesOf(xs + ys).Success?
    ensures NamesOf(xs).Success? && NamesOf(ys).Success?
    ensures NamesOf(xs + ys).value == NamesOf(xs).value + NamesOf(ys).value
    decreases |ys|
  {
    if ys == [] {
      assert xs + ys == xs;
    } else {
      var zs, ys' := xs + ys, ys[..|ys| - 1];
      assert zs[..|zs| - 1] == xs + ys';
      assert zs[|zs| - 1] == ys[|ys| - 1];
      NamesOfSnoc(zs);
      NamesOfConcat(xs, ys');
      assert forall a :: a in ys ==> a in zs;
      NamesOfSnoc(ys);
    }
  }

  /** `get_airport_names`: the names of all retrieved airports, empty ones left out. */
  function AirportNames(response: APIResponse): (r: Result<seq<Json>, ClientError>)
    ensures AirportsOf(response).Failure? ==> r == Failure(AirportsOf(response).error)
    ensures AirportsOf(response).Success? ==> r == NamesOf(AirportsOf(response).value)
  {
    match AirportsOf(response)
    case Failure(e) => Failure(e)
    case Success(airports) => NamesOf(airports)
  }

  // ---------------------------------------------------------------- existence check

  /**
   * The loop of `verify_airports_exist`: each required name is looked up, exactly and
   * with case, in the list of names, and every one is checked before any failure.
   */
  method CheckRequired(requiredAirports: seq<string>, airportNames: seq<Json>)
    returns (verificationResults: map<string, bool>, missingAirports: seq<string>)
    ensures verificationResults.Keys == set a | a in requiredAirports
    ensures forall a :: a in verificationResults ==> verificationResults[a] == (JString(a) in airportNames)
    ensures missingAirports == Missing(requiredAirports, JArray(airportNames))
  {
    verificationResults := map[];
    missingAirports := [];
    var i := 0;
    while i < |requiredAirports|
      invariant 0 <= i <= |requiredAirports|
      invariant verificationResults.Keys == set a | a in requiredAirports[..i]
      invariant forall a :: a in verificationResults ==> verificationResults[a] == (JString(a) in airportNames)
      invariant missingAirports == Missing(requiredAirports[..i], JArray(airportNames))
    {
      var requiredAirport := requiredAirports[i];
      var found := JString(requiredAirport) in airportNames;
      verificationResults := verificationResults[requiredAirport := found];
      MissingSnoc(requiredAirports[..i], requiredAirport, JArray(airportNames));
      assert requiredAirports[..i + 1] == requiredAirports[..i] + [requiredAirport];
      if !found {
        missingAirports := missingAirports + [requiredAirport];
      }
      i := i + 1;
    }
    assert requiredAirports[..i] == requiredAirports;
  }

  /**
   * `verify_airports_exist`: the result of every lookup, or a failure that lists every
   * missing name together with every available one.
   */
  method VerifyAirportsExist(response: APIResponse, requiredAirports: seq<string>)
    returns (r: Result<map<string, bool>, ClientError>)
    ensures AirportNames(response).Failure? ==> r == Failure(AirportNames(response).error)
    ensures AirportNames(response).Success? ==>
      var names := AirportNames(response).value;
      && (r.Failure? <==> exists a :: a in requiredAirports && JString(a) !in names)
      && (r.Failure? ==> r.error == MissingAirports(Missing(requiredAirports, JArray(names)), names))
      && (r.Success? ==> r.value.Keys == set a | a in requiredAirports)
      && (r.Success? ==> forall a :: a in r.value ==> r.value[a] && JString(a) in names)
  {
    var fetched := AirportNames(response);
    if fetched.Failure? {
      return Failure(fetched.error);
    }
    var airportNames := fetched.value;
    var verificationResults, missingAirports := CheckRequired(requiredAirports, airportNames);
    NothingMissing(requiredAirports, JArray(airportNames));
    if missingAirports != [] {
      return Failure(MissingAirports(missingAirports, airportNames));
    }
    return Success(verificationResults);
  }

  /** Only the names that are absent are reported: here, of A, B and Z, just Z. */
  lemma ExistenceExample()
    ensures Missing(["A", "B", "Z"], JArray([JString("A"), JString("B")])) == ["Z"]
  {
  }

  /** Name lookup is case-sensitive: a name is not found under its lower-case spelling. */
  lemma ExistenceIsCaseSensitive()
    ensures Missing(["kansai"], JArray([JString("Kansai")])) == ["kansai"]
  {
  }

  // ---------------------------------------------------------------- distance

  const DistanceFields: seq<string> := ["kilometers", "miles", "nautical_miles"]

  /**
   * The placeholder airport of one end of the route: id and type from the
   * relationship data, falling back to the caller's code and "airport".
   */
  function PlaceholderAirport(relationshipData: Json, code: string): (r: Result<Airport, ClientError>)
    ensures r.Success? <==> relationshipData.JObject?
    ensures r.Failure? ==> r.error == Raised(AttributeError)
    ensures r.Success? ==> r.value.attributes == JObject(map["iata" := JString(code)])
    ensures r.Success? ==> IataCode(r.value) == Success(JString(code))
    ensures r.Success? ==>
      r.value.id == if "id" in relationshipData.fields then relationshipData.fields["id"] else JString(code)
    ensures r.Success? ==>
      r.value.airportType
        == if "type" in relationshipData.fields then relationshipData.fields["type"] else JString("airport")
  {
    match relationshipData
    case JObject(_) =>
      Success(Airport(Get(relationshipData, "id", JString(code)).value,
                      Get(relationshipData, "type", JString("airport")).value,
                      JObject(map["iata" := JString(code)])))
    case _ => Failure(Raised(AttributeError))
  }

  /** `data.get("relationships", {}).get(end, {}).get("data", {})` */
  function RelationshipData(data: Json, end: string): (r: Result<Json, ClientError>)
    ensures !data.JObject? ==> r == Failure(Raised(AttributeError))
    ensures data.JObject? && "relationships" !in data.fields ==> r == Success(JObject(map[]))
    ensures data.JObject? && "relationships" in data.fields ==>
      var relationships := data.fields["relationships"];
      && (!relationships.JObject? ==> r == Failure(Raised(AttributeError)))
      && (relationships.JObject? && end !in relationships.fields ==> r == Success(JObject(map[])))
      && (relationships.JObject? && end in relationships.fields ==>
            var relationship := relationships.fields[end];
            && (!relationship.JObject? ==> r == Failure(Raised(AttributeError)))
            && (relationship.JObject? ==>
                  r == Success(if "data" in relationship.fields then relationship.fields["data"] else JObject(map[]))))
  {
    var relationships :- Lift(Get(data, "relationships", JObject(map[])));
    var relationship :- Lift(Get(relationships, end, JObject(map[])));
    Lift(Get(relationship, "data", JObject(map[])))
  }

  /** `float(attributes[field])` */
  function Measurement(attributes: Json, field: string, parseFloat: string -> Option<real>)
    : (r: Result<real, ClientError>)
    ensures !attributes.JObject? ==> r == Failure(Raised(TypeError))
    ensures attributes.JObject? && field !in attributes.fields ==> r == Failure(Raised(KeyError(field)))
    ensures attributes.JObject? && field in attributes.fields ==>
      r == Lift(ToFloat(attributes.fields[field], parseFloat))
    ensures attributes.JObject? && field in attributes.fields && attributes.fields[field].JNumber? ==>
      r == Success(attributes.fields[field].n)
  {
    var value :- Lift(Index(attributes, field));
    Lift(ToFloat(value, parseFloat))
  }

  /** The part of `calculate_distance` that works on the value under `data`. */
  function DistanceFrom(data: Json, fromCode: string, toCode: string, parseFloat: string -> Option<real>)
    : (r: Result<DistanceCalculation, ClientError>)
    ensures !data.JObject? ==> r == Failure(Raised(AttributeError))
    ensures r.Success? ==> data.JObject? && "attributes" in data.fields
    ensures data.JObject? && !SupportsIn(Get(data, "attributes", JObject(map[])).value) ==>
      r == Failure(Raised(TypeError))
    ensures data.JObject? && SupportsIn(Get(data, "attributes", JObject(map[])).value) ==>
      var missing := Missing(DistanceFields, Get(data, "attributes", JObject(map[])).value);
      && (missing != [] ==> r == Failure(MissingDistanceFields(missing)))
      && (r.Success? ==> missing == [])
    ensures data.JObject? && SupportsIn(Get(data, "attributes", JObject(map[])).value)
            && Missing(DistanceFields, Get(data, "attributes", JObject(map[])).value) == [] ==>
      var attributes := Get(data, "attributes", JObject(map[])).value;
      var from, to := RelationshipData(data, "from"), RelationshipData(data, "to");
      var kilometers := Measurement(attributes, "kilometers", parseFloat);
      var miles := Measurement(attributes, "miles", parseFloat);
      var nauticalMiles := Measurement(attributes, "nautical_miles", parseFloat);
      && (from.Failure? ==> r == Failure(from.error))
      && (from.Success? && to.Failure? ==> r == Failure(to.error))
      && (from.Success? && to.Success? && !from.value.JObject? ==> r == Failure(Raised(AttributeError)))
      && (from.Success? && to.Success? && from.value.JObject? && !to.value.JObject? ==>
            r == Failure(Raised(AttributeError)))
      && (from.Success? && to.Success? && from.value.JObject? && to.value.JObject? ==>
            && (kilometers.Failure? ==> r == Failure(kilometers.error))
            && (kilometers.Success? && miles.Failure? ==> r == Failure(miles.error))
            && (kilometers.Success? && miles.Success? && nauticalMiles.Failure? ==> r == Failure(nauticalMiles.error)))
    ensures r.Success? <==>
      && data.JObject?
      && var attributes := Get(data, "attributes", JObject(map[])).value;
         && SupportsIn(attributes)
         && Missing(DistanceFields, attributes) == []
         && RelationshipData(data, "from").Success? && RelationshipData(data, "from").value.JObject?
         && RelationshipData(data, "to").Success? && RelationshipData(data, "to").value.JObject?
         && Measurement(attributes, "kilometers", parseFloat).Success?
         && Measurement(attributes, "miles", parseFloat).Success?
         && Measurement(attributes, "nautical_miles", parseFloat).Success?
    ensures r.Success? ==>
      && r.value.fromAirport == PlaceholderAirport(RelationshipData(data, "from").value, fromCode).value
      && r.value.toAirport == PlaceholderAirport(RelationshipData(data, "to").value, toCode).value
    ensures r.Success? ==>
      IataCode(r.value.fromAirport) == Success(JString(fromCode))
      && IataCode(r.value.toAirport) == Success(JString(toCode))
    ensures r.Success? ==>
      var attributes := data.fields["attributes"];
      && Measurement(attributes, "kilometers", parseFloat) == Success(r.value.kilometers)
      && Measurement(attributes, "miles", parseFloat) == Success(r.value.miles)
      && Measurement(attributes, "nautical_miles", parseFloat) == Success(r.value.nauticalMiles)
  {
    var attributes :- Lift(Get(data, "attributes", JObject(map[])));
    if !SupportsIn(attributes) then Failure(Raised(TypeError))
    else
      var missing := Missing(DistanceFields, attributes);
      if missing != [] then Failure(MissingDistanceFields(missing))
      else
        var fromData :- RelationshipData(data, "from");
        var toData :- RelationshipData(data, "to");
        var fromAirport :- PlaceholderAirport(fromData, fromCode);
        var toAirport :- PlaceholderAirport(toData, toCode);
        var kilometers :- Measurement(attributes, "kilometers", parseFloat);
        var miles :- Measurement(attributes, "miles", parseFloat);
        var nauticalMiles :- Measurement(attributes, "nautical_miles", parseFloat);
        Success(DistanceCalculation(fromAirport, toAirport, kilometers, miles, nauticalMiles))
  }

  /** With every field missing, all three are reported, in order. */
  lemma NoAttributesMissesAllFields(data: Json, fromCode: string, toCode: string, parseFloat: string -> Option<real>)
    requires data.JObject? && "attributes" !in data.fields
    ensures DistanceFrom(data, fromCode, toCode, parseFloat) == Failure(MissingDistanceFields(DistanceFields))
  {
    EmptyAttributesMissAll();
  }

  lemma EmptyAttributesMissAll()
    ensures Missing(DistanceFields, JObject(map[])) == DistanceFields
  {
  }

  /** Without relationship data the placeholders are identified by the caller's codes. */
  lemma NoRelationshipsUsesCodes(data: Json, fromCode: string, toCode: string, parseFloat: string -> Option<real>)
    requires data.JObject? && "relationships" !in data.fields
    requires DistanceFrom(data, fromCode, toCode, parseFloat).Success?
    ensures var d := DistanceFrom(data, fromCode, toCode, parseFloat).value;
      && d.fromAirport == Airport(JString(fromCode), JString("airport"), JObject(map["iata" := JString(fromCode)]))
      && d.toAirport == Airport(JString(toCode), JString("airport"), JObject(map["iata" := JString(toCode)]))
  {
  }

  /**
   * A well-formed payload: dict attributes whose three fields convert with float()
   * and dict relationship data at both ends give a distance with those measurements.
   */
  lemma WellFormedDistanceSucceeds(data: Json, fromCode: string, toCode: string, parseFloat: string -> Option<real>)
    requires data.JObject? && "attributes" in data.fields
    requires var attributes := data.fields["attributes"];
      && attributes.JObject?
      && forall field :: field in DistanceFields ==>
           field in attributes.fields && ToFloat(attributes.fields[field], parseFloat).Success?
    requires RelationshipData(data, "from").Success? && RelationshipData(data, "from").value.JObject?
    requires RelationshipData(data, "to").Success? && RelationshipData(data, "to").value.JObject?
    ensures DistanceFrom(data, fromCode, toCode, parseFloat).Success?
    ensures var d := DistanceFrom(data, fromCode, toCode, parseFloat).value;
      var attributes := data.fields["attributes"].fields;
      && d.kilometers == ToFloat(attributes["kilometers"], parseFloat).value
      && d.miles == ToFloat(attributes["miles"], parseFloat).value
      && d.nauticalMiles == ToFloat(attributes["nautical_miles"], parseFloat).value
  {
    var attributes := data.fields["attributes"];
    assert "kilometers" in DistanceFields && "miles" in DistanceFields && "nautical_miles" in DistanceFields;
    assert Missing(DistanceFields, attributes) == [] by {
      NothingMissing(DistanceFields, attributes);
    }
  }

  /**
   * A list naming the three fields passes the `in` checks, and then indexing it with
   * a string raises `TypeError`.
   */
  lemma ListAttributesRaiseTypeError(data: Json, fromCode: string, toCode: string, parseFloat: string -> Option<real>)
    requires data.JObject?
    requires RelationshipData(data, "from").Success? && RelationshipData(data, "from").value.JObject?
    requires RelationshipData(data, "to").Success? && RelationshipData(data, "to").value.JObject?
    requires "attributes" in data.fields && data.fields["attributes"] == JArray([JString("kilometers"), JString("miles"), JString("nautical_miles")])
    ensures DistanceFrom(data, fromCode, toCode, parseFloat) == Failure(Raised(TypeError))
  {
    var attributes := data.fields["attributes"];
    assert Missing(DistanceFields, attributes) == [] by {
      NothingMissing(DistanceFields, attributes);
    }
  }

  /** `calculate_distance`: the response checks, then the distance read from `data`. */
  function CalculateDistance(response: APIResponse, fromCode: string, toCode: string,
                             parseFloat: string -> Option<real>)
    : (r: Result<DistanceCalculation, ClientError>)
    ensures DataOf(response).Failure? ==> r == Failure(DataOf(response).error)
    ensures DataOf(response).Success? ==> r == DistanceFrom(DataOf(response).value, fromCode, toCode, parseFloat)
  {
    var data :- DataOf(response);
    DistanceFrom(data, fromCode, toCode, parseFloat)
  }

  /** The custom message of the distance check (the source also prints both distances). */
  function DistanceMessage(fromCode: string, toCode: string): string {
    "Distance between " + fromCode + " and " + toCode + " should be greater than the minimum"
  }

  /** `verify_distance_greater_than`: the kilometres, only when strictly above the minimum. */
  function VerifyDistanceGreaterThan(response: APIResponse, fromCode: string, toCode: string,
                                     minDistance: real, parseFloat: string -> Option<real>)
    : (r: Result<real, ClientError>)
    ensures var d := CalculateDistance(response, fromCode, toCode, parseFloat);
      && (r.Success? <==> d.Success? && d.value.kilometers > minDistance)
      && (r.Success? ==> r.value == d.value.kilometers && r.value > minDistance)
      && (d.Failure? ==> r == Failure(d.error))
      && (d.Success? && d.value.kilometers <= minDistance ==>
            r == Failure(AssertionFailed(Custom(DistanceMessage(fromCode, toCode)))))
  {
    var distance :- CalculateDistance(response, fromCode, toCode, parseFloat);
    var check := AssertGreaterThan(distance.kilometers, minDistance, Some(DistanceMessage(fromCode, toCode)));
    if check.Fail? then Failure(AssertionFailed(check.error)) else Success(distance.kilometers)
  }

  // ---------------------------------------------------------------- lookup by IATA code

  /** The airport's IATA code is a string equal to `code` once both are upper-cased. */
  predicate MatchesIata(airport: Airport, code: string) {
    var iata := IataCode(airport);
    iata.Success? && iata.value.JString? && Upper(iata.value.s) == Upper(code)
  }

  /** The code can be upper-cased: it is a string, under attributes that are a dict. */
  predicate HasStringIata(airport: Airport) {
    IataCode(airport).Success? && IataCode(airport).value.JString?
  }

  /**
   * The scan of `get_airport_by_iata_code`: the first matching airport. `.upper()` on
   * a code that is not a string raises, and the lookup turns that into None.
   */
  function IataScan(airports: seq<Airport>, code: string): (r: Option<Airport>)
    ensures r.Some? ==> r.value in airports && MatchesIata(r.value, code)
    decreases |airports|
  {
    if airports == [] then None
    else if !HasStringIata(airports[0]) then None
    else if MatchesIata(airports[0], code) then Some(airports[0])
    else IataScan(airports[1..], code)
  }

  /** A found airport is the first match, and every airport before it was scanned and passed over. */
  lemma {:induction false} IataScanFindsFirst(airports: seq<Airport>, code: string) returns (i: nat)
    requires IataScan(airports, code).Some?
    ensures i < |airports| && airports[i] == IataScan(airports, code).value
    ensures MatchesIata(airports[i], code)
    ensures forall j :: 0 <= j < i ==> HasStringIata(airports[j]) && !MatchesIata(airports[j], code)
    decreases |airports|
  {
    if MatchesIata(airports[0], code) {
      i := 0;
    } else {
      var k := IataScanFindsFirst(airports[1..], code);
      i := k + 1;
    }
  }

  /** When every code is a string, nothing is found exactly when nothing matches. */
  lemma {:induction false} IataScanNone(airports: seq<Airport>, code: string)
    requires forall a :: a in airports ==> HasStringIata(a)
    ensures IataScan(airports, code).None? <==> forall a :: a in airports ==> !MatchesIata(a, code)
    decreases |airports|
  {
    if airports != [] {
      assert forall a :: a in airports[1..] ==> a in airports;
      IataScanNone(airports[1..], code);
      assert forall a :: a in airports ==> a == airports[0] || a in airports[1..];
    }
  }

  /** A match preceded only by string codes is found, whatever follows it. */
  lemma {:induction false} IataScanFindsMatch(airports: seq<Airport>, code: string, i: nat)
    requires i < |airports| && MatchesIata(airports[i], code)
    requires forall j :: 0 <= j < i ==> HasStringIata(airports[j])
    ensures IataScan(airports, code).Some?
    decreases i
  {
    if i > 0 && !MatchesIata(airports[0], code) {
      assert HasStringIata(airports[0]);
      assert forall j :: 0 <= j < i - 1 ==> airports[1..][j] == airports[j + 1];
      IataScanFindsMatch(airports[1..], code, i - 1);
    }
  }

  /**
   * Nothing is found exactly when every match comes after an airport whose code
   * cannot be upper-cased.
   */
  lemma IataScanNoneExactly(airports: seq<Airport>, code: string)
    ensures IataScan(airports, code).None? <==>
      forall i :: 0 <= i < |airports| && MatchesIata(airports[i], code) ==>
        exists j :: 0 <= j < i && !HasStringIata(airports[j])
  {
    if IataScan(airports, code).Some? {
      var i := IataScanFindsFirst(airports, code);
    } else {
      forall i | 0 <= i < |airports| && MatchesIata(airports[i], code)
        ensures exists j :: 0 <= j < i && !HasStringIata(airports[j])
      {
        if forall j :: 0 <= j < i ==> HasStringIata(airports[j]) {
          IataScanFindsMatch(airports, code, i);
        }
      }
    }
  }

  /** A malformed airport after the match does not hide it. */
  lemma MalformedAfterMatchExample()
    ensures var kix := Airport(JString("1"), JString("airport"), JObject(map["iata" := JString("KIX")]));
      var broken := Airport(JString("2"), JString("airport"), JNull);
      IataScan([kix, broken], "kix") == Some(kix)
  {
  }

  /** The query's case does not matter. */
  lemma {:induction false} IataScanIgnoresCase(airports: seq<Airport>, code: string)
    ensures IataScan(airports, Lower(code)) == IataScan(airports, code)
    ensures IataScan(airports, Upper(code)) == IataScan(airports, code)
    decreases |airports|
  {
    FoldingForgetsCase(code);
    if airports != [] {
      IataScanIgnoresCase(airports[1..], code);
    }
  }

  /** `get_airport_by_iata_code`: never raises; a failed fetch and no match both give None. */
  method GetAirportByIataCode(response: APIResponse, iataCode: string) returns (r: Option<Airport>)
    ensures AirportsOf(response).Failure? ==> r == None
    ensures AirportsOf(response).Success? ==> r == IataScan(AirportsOf(response).value, iataCode)
  {
    var fetched := GetAllAirports(response);
    if fetched.Failure? {
      return None;
    }
    var airports := fetched.value;
    var i := 0;
    while i < |airports|
      invariant 0 <= i <= |airports|
      invariant IataScan(airports[i..], iataCode) == IataScan(airports, iataCode)
    {
      assert airports[i..][1..] == airports[i + 1..];
      var iata := IataCode(airports[i]);
      if iata.Failure? || !iata.value.JString? {
        return None;
      }
      if Upper(iata.value.s) == Upper(iataCode) {
        return Some(airports[i]);
      }
      i := i + 1;
    }
    return None;
  }
}
