/** The records of `src/core/types.py` and the properties derived from their fields. */
module Types {
  import opened Wrappers
  import opened Json

  datatype TestResult = Passed | Failed | Skipped | Broken

  /** What is known about one test run; the times are seconds since the epoch. */
  datatype TestContext = TestContext(
    correlationId: string,
    testName: string,
    browserName: Option<string>,
    startTime: Option<real>,
    endTime: Option<real>,
    result: Option<TestResult>,
    errorMessage: Option<string>,
    screenshotPath: Option<string>)

  /** `start_time and end_time`: a missing time and a time of 0.0 are both falsy. */
  predicate IsSet(t: Option<real>) {
    t.Some? && t.value != 0.0
  }

  /** The run's length, when both of its ends are set. */
  function Duration(ctx: TestContext): (r: Option<real>)
    ensures r.Some? <==> IsSet(ctx.startTime) && IsSet(ctx.endTime)
    ensures r.Some? ==> ctx.startTime.value + r.value == ctx.endTime.value
  {
    if IsSet(ctx.startTime) && IsSet(ctx.endTime) then Some(ctx.endTime.value - ctx.startTime.value)
    else None
  }

  /** A start time of zero counts as unset, whatever the end time is. */
  lemma ZeroStartHasNoDuration(ctx: TestContext)
    requires ctx.startTime == Some(0.0)
    ensures Duration(ctx) == None
  {
  }

  /**
   * One HTTP round trip. `body` is the parsed JSON document, or the raw text as a
   * `JString` when the text is empty or not JSON.
   */
  datatype APIResponse = APIResponse(
    statusCode: int,
    headers: map<string, string>,
    body: Json,
    url: string,
    httpMethod: string,
    durationMs: Option<real>)

  /** A 2xx status: the hundreds digit of the code is 2. */
  function IsSuccess(response: APIResponse): (b: bool)
    ensures b <==> response.statusCode / 100 == 2
  {
    200 <= response.statusCode < 300
  }

  lemma SuccessBoundaries(response: APIResponse)
    ensures response.statusCode == 199 ==> !IsSuccess(response)
    ensures response.statusCode == 200 ==> IsSuccess(response)
    ensures response.statusCode == 299 ==> IsSuccess(response)
    ensures response.statusCode == 300 ==> !IsSuccess(response)
  {
  }

  /** The body as a dict, when it is one. */
  function JsonBody(response: APIResponse): (r: Option<map<string, Json>>)
    ensures r.Some? <==> response.body.JObject?
    ensures r.Some? ==> JObject(r.value) == response.body
  {
    if response.body.JObject? then Some(response.body.fields) else None
  }

  /**
   * An airport record. The dataclass checks no field, so each keeps whatever JSON
   * value the API sent; `airportType` is the field named `type`.
   */
  datatype Airport = Airport(id: Json, airportType: Json, attributes: Json)

  /** `airport.attributes.get(key, "")`; raises AttributeError when attributes is not a dict. */
  function Attribute(airport: Airport, key: string): (r: Result<Json, PyError>)
    ensures r.Success? <==> airport.attributes.JObject?
    ensures r.Success? ==> r.value == if key in airport.attributes.fields
                                       then airport.attributes.fields[key] else JString("")
  {
    Get(airport.attributes, key, JString(""))
  }

  function Name(airport: Airport): (r: Result<Json, PyError>)
    ensures r.Success? <==> airport.attributes.JObject?
    ensures r.Success? && "name" in airport.attributes.fields ==> r.value == airport.attributes.fields["name"]
    ensures r.Success? && "name" !in airport.attributes.fields ==> r.value == JString("")
  {
    Attribute(airport, "name")
  }

  function City(airport: Airport): (r: Result<Json, PyError>)
    ensures r.Success? <==> airport.attributes.JObject?
    ensures r.Success? && "city" in airport.attributes.fields ==> r.value == airport.attributes.fields["city"]
    ensures r.Success? && "city" !in airport.attributes.fields ==> r.value == JString("")
  {
    Attribute(airport, "city")
  }

  function Country(airport: Airport): (r: Result<Json, PyError>)
    ensures r.Success? <==> airport.attributes.JObject?
    ensures r.Success? && "country" in airport.attributes.fields ==> r.value == airport.attributes.fields["country"]
    ensures r.Success? && "country" !in airport.attributes.fields ==> r.value == JString("")
  {
    Attribute(airport, "country")
  }

  /** The code is stored under "iata". */
  function IataCode(airport: Airport): (r: Result<Json, PyError>)
    ensures r.Success? <==> airport.attributes.JObject?
    ensures r.Success? && "iata" in airport.attributes.fields ==> r.value == airport.attributes.fields["iata"]
    ensures r.Success? && "iata" !in airport.attributes.fields ==> r.value == JString("")
  {
    Attribute(airport, "iata")
  }

  /**
   * On an airport whose attributes are a dict no accessor fails: each gives the value
   * stored under its own key, and "" when the key is absent.
   */
  lemma AccessorsOfObject(airport: Airport)
    requires airport.attributes.JObject?
    ensures var m := airport.attributes.fields;
      && Name(airport) == Success(if "name" in m then m["name"] else JString(""))
      && City(airport) == Success(if "city" in m then m["city"] else JString(""))
      && Country(airport) == Success(if "country" in m then m["country"] else JString(""))
      && IataCode(airport) == Success(if "iata" in m then m["iata"] else JString(""))
  {
  }

  /** An airport whose attributes are not a dict makes every accessor raise. */
  lemma AccessorsOfNonObject(airport: Airport)
    requires !airport.attributes.JObject?
    ensures Name(airport) == City(airport) == Country(airport) == IataCode(airport)
         == Failure(AttributeError)
  {
  }

  /** A name is empty exactly when the `name` key is absent or holds "". */
  lemma EmptyName(airport: Airport)
    requires airport.attributes.JObject?
    ensures Name(airport) == Success(JString(""))
        <==> ("name" !in airport.attributes.fields
              || airport.attributes.fields["name"] == JString(""))
  {
  }

  /** The distance between two airports in three units. */
  datatype DistanceCalculation = DistanceCalculation(
    fromAirport: Airport,
    toAirport: Airport,
    kilometers: real,
    miles: real,
    nauticalMiles: real)

  /** All three measurements strictly positive. */
  function IsValidDistance(d: DistanceCalculation): (b: bool)
    ensures b <==> forall x :: x in [d.kilometers, d.miles, d.nauticalMiles] ==> x > 0.0
  {
    var measurements := [d.kilometers, d.miles, d.nauticalMiles];
    assert measurements[0] in measurements && measurements[1] in measurements && measurements[2] in measurements;
    d.kilometers > 0.0 && d.miles > 0.0 && d.nauticalMiles > 0.0
  }

  /** Any measurement that is zero or negative makes the distance invalid. */
  lemma NonPositiveIsInvalid(d: DistanceCalculation)
    requires d.kilometers <= 0.0 || d.miles <= 0.0 || d.nauticalMiles <= 0.0
    ensures !IsValidDistance(d)
  {
  }
}
