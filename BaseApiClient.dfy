/**
 * The decision logic of `src/core/base_api_client.py`: how a request is put together
 * (URL, headers, body, which verb), how a response body is read, and the two
 * response checks. The call into the HTTP library itself is not modelled:
 * `ExecuteRequest` returns the call it would make.
 */
module BaseApiClient {
  import opened Wrappers
  import opened Strings
  import opened Json
  import opened Types
  import opened Assertions

  /**
   * Why an API operation raised. The airports client raises the same kinds, so they
   * are all gathered here.
   */
  datatype ClientError =
    | StatusMismatch(expectedStatus: int, actualStatus: int, responseBody: Json)
    | BodyNotObject(body: Json)
    | MissingKeys(missing: seq<string>, availableKeys: set<string>)
    | UnsupportedMethod(httpMethod: string)
    | DataNotList(data: Json)
    | MissingDistanceFields(fields: seq<string>)
    | MissingAirports(missing: seq<string>, availableNames: seq<Json>)
    | Raised(error: PyError)
    | AssertionFailed(message: Message<NumericDetail>)

  /** A request body: `str` or `bytes`. */
  datatype Payload = Text(text: string) | Bytes(bytes: seq<bv8>)

  // ---------------------------------------------------------------- URLs

  predicate IsAbsolute(url: string) {
    StartsWith(url, "http://") || StartsWith(url, "https://")
  }

  /** An absolute URL as it is; a relative one joined to the base with exactly one '/'. */
  function BuildUrl(baseUrl: string, url: string): (r: string)
    ensures IsAbsolute(url) ==> r == url
  {
    if IsAbsolute(url) then url
    else TrimTrailing(baseUrl, '/') + "/" + TrimLeading(url, '/')
  }

  /** In a relative join the base keeps no trailing '/' and the path no leading '/'. */
  lemma RelativeJoinHasOneSlash(baseUrl: string, url: string)
    requires !IsAbsolute(url)
    ensures var b := TrimTrailing(baseUrl, '/');
            var u := TrimLeading(url, '/');
      && BuildUrl(baseUrl, url) == b + "/" + u
      && StartsWith(baseUrl, b) && (b == [] || b[|b| - 1] != '/')
      && EndsWith(url, u) && (u == [] || u[0] != '/')
  {
  }

  /** Extra slashes on either side of the join do not change the URL. */
  lemma JoinIgnoresExtraSlashes(baseUrl: string, url: string)
    requires !IsAbsolute(url)
    ensures BuildUrl(baseUrl + "/", url) == BuildUrl(baseUrl, url)
    ensures BuildUrl(baseUrl, "/" + url) == BuildUrl(baseUrl, url)
  {
    assert (baseUrl + "/")[..|baseUrl|] == baseUrl;
    assert ("/" + url)[1..] == url;
    assert !StartsWith("/" + url, "http://") && !StartsWith("/" + url, "https://") by {
      assert ("/" + url)[0] == '/';
    }
  }

  /** Building again is a no-op as long as the base is absolute once its '/'s are stripped. */
  lemma BuildUrlIdempotent(baseUrl: string, url: string)
    requires IsAbsolute(TrimTrailing(baseUrl, '/'))
    ensures BuildUrl(baseUrl, BuildUrl(baseUrl, url)) == BuildUrl(baseUrl, url)
  {
  }

  /** A base that is nothing but a scheme loses its "//", so the built URL is relative. */
  lemma BareSchemeBase()
    ensures BuildUrl("http://", "x") == "http:/x"
    ensures !IsAbsolute(BuildUrl("http://", "x"))
  {
    assert TrimTrailing("http://", '/') == "http:" by {
      assert "http://"[..6] == "http:/";
      assert "http:/"[..5] == "http:";
    }
    assert TrimLeading("x", '/') == "x";
  }

  // ---------------------------------------------------------------- headers and body

  const DefaultHeaders: map<string, string> := map[
    "Content-Type" := "application/json",
    "Accept" := "application/json",
    "User-Agent" := "Playwright-Automation-Framework/1.0"]

  /** A fresh copy of the default headers, updated with the caller's headers. */
  method PrepareHeaders(headers: Option<map<string, string>>) returns (h: map<string, string>)
    ensures headers.None? ==> h == DefaultHeaders
    ensures headers.Some? ==> h.Keys == DefaultHeaders.Keys + headers.value.Keys
    ensures headers.Some? ==> forall k :: k in headers.value ==> h[k] == headers.value[k]
    ensures forall k :: k in DefaultHeaders && (headers.None? || k !in headers.value)
                        ==> k in h && h[k] == DefaultHeaders[k]
  {
    h := DefaultHeaders;
    if headers.Some? && headers.value != map[] {
      h := h + headers.value;
    }
  }

  /** A JSON argument wins over raw data, even an empty one; `dumps` is `json.dumps`. */
  function PrepareBody(data: Option<Payload>, jsonData: Option<Json>, dumps: Json -> string)
    : (r: Option<Payload>)
    ensures jsonData.Some? ==> r == Some(Text(dumps(jsonData.value)))
    ensures jsonData.None? ==> r == data
  {
    if jsonData.Some? then Some(Text(dumps(jsonData.value))) else data
  }

  // ---------------------------------------------------------------- dispatch

  datatype Verb = GET | POST | PUT | DELETE | PATCH

  function VerbName(v: Verb): string {
    match v
    case GET => "GET"
    case POST => "POST"
    case PUT => "PUT"
    case DELETE => "DELETE"
    case PATCH => "PATCH"
  }

  const SupportedMethods: seq<string> := ["GET", "POST", "PUT", "DELETE", "PATCH"]

  /** One keyword argument of the request call. */
  datatype Kwarg =
    | Timeout(ms: int)
    | Headers(headers: map<string, string>)
    | Data(payload: Payload)
    | Params(params: map<string, string>)

  /** The library call `_execute_request` makes: which verb, on which URL, with which keywords. */
  datatype PlannedRequest = PlannedRequest(verb: Verb, url: string, kwargs: map<string, Kwarg>)

  method ExecuteRequest(
    httpMethod: string, url: string, headers: map<string, string>,
    data: Option<Payload>, params: Option<map<string, string>>, timeout: int)
    returns (r: Result<PlannedRequest, ClientError>)
    ensures r.Success? <==> Upper(httpMethod) in SupportedMethods
    ensures r.Failure? ==> r.error == UnsupportedMethod(httpMethod)
    ensures r.Success? ==> VerbName(r.value.verb) == Upper(httpMethod) && r.value.url == url
    ensures r.Success? ==>
      r.value.kwargs.Keys == {"timeout", "headers"} + (if data.Some? then {"data"} else {})
                                                    + (if params.Some? then {"params"} else {})
    ensures r.Success? ==>
      r.value.kwargs["timeout"] == Timeout(timeout) && r.value.kwargs["headers"] == Headers(headers)
    ensures r.Success? && data.Some? ==> r.value.kwargs["data"] == Data(data.value)
    ensures r.Success? && params.Some? ==> r.value.kwargs["params"] == Params(params.value)
  {
    var kwargs: map<string, Kwarg> := map["timeout" := Timeout(timeout), "headers" := Headers(headers)];
    if data.Some? {
      kwargs := kwargs["data" := Data(data.value)];
    }
    if params.Some? {
      kwargs := kwargs["params" := Params(params.value)];
    }
    var m := Upper(httpMethod);
    if m == "GET" {
      r := Success(PlannedRequest(GET, url, kwargs));
    } else if m == "POST" {
      r := Success(PlannedRequest(POST, url, kwargs));
    } else if m == "PUT" {
      r := Success(PlannedRequest(PUT, url, kwargs));
    } else if m == "DELETE" {
      r := Success(PlannedRequest(DELETE, url, kwargs));
    } else if m == "PATCH" {
      r := Success(PlannedRequest(PATCH, url, kwargs));
    } else {
      r := Failure(UnsupportedMethod(httpMethod));
    }
  }

  /** Every verb is reached from its name in any case, and no two verbs share a name. */
  lemma DispatchIgnoresCase(v: Verb, w: Verb)
    ensures Upper(Lower(VerbName(v))) == VerbName(v) && VerbName(v) in SupportedMethods
    ensures VerbName(v) == VerbName(w) ==> v == w
  {
  }

  // ---------------------------------------------------------------- responses

  /**
   * The body of a response: `text` is `response.text()`, `None` when reading it raised;
   * `loads` is `json.loads`, `None` on a JSONDecodeError. Never raises.
   */
  function ParseResponseBody(text: Option<string>, loads: string -> Option<Json>): (body: Json)
    ensures text.None? || text == Some("") ==> body == JString("")
    ensures text.Some? && text.value != "" && loads(text.value).Some? ==> body == loads(text.value).value
    ensures text.Some? && text.value != "" && loads(text.value).None? ==> body == JString(text.value)
  {
    match text
    case None => JString("")
    case Some(t) =>
      if t == "" then JString("")
      else match loads(t)
        case Some(j) => j
        case None => JString(t)
  }

  /** A None body arises only from a non-empty text that is the JSON document `null`. */
  lemma NullBodyOnlyFromNullDocument(text: Option<string>, loads: string -> Option<Json>)
    requires ParseResponseBody(text, loads) == JNull
    ensures text.Some? && text.value != "" && loads(text.value) == Some(JNull)
  {
  }

  function VerifyResponseStatus(response: APIResponse, expectedStatus: int := 200): (r: Outcome<ClientError>)
    ensures r.Pass? <==> response.statusCode == expectedStatus
    ensures r.Fail? ==> r.error == StatusMismatch(expectedStatus, response.statusCode, response.body)
  {
    if response.statusCode != expectedStatus then
      Fail(StatusMismatch(expectedStatus, response.statusCode, response.body))
    else Pass
  }

  /** Checking against the default status accepts only responses that are successes. */
  lemma DefaultStatusIsSuccess(response: APIResponse)
    requires VerifyResponseStatus(response).Pass?
    ensures IsSuccess(response) && response.statusCode == 200
  {
  }

  /** The client's status check and the assertion helper's agree on every response. */
  lemma StatusChecksAgree(response: APIResponse, expected: int, shownBody: Option<string>)
    ensures VerifyResponseStatus(response, expected).Pass?
        <==> AssertStatusCode(response.statusCode, expected, shownBody).Pass?
  {
  }

  /** A 404 checked against 200 fails reporting both codes. */
  lemma NotFoundExample(response: APIResponse)
    requires response.statusCode == 404
    ensures VerifyResponseStatus(response).Fail?
    ensures VerifyResponseStatus(response).error.expectedStatus == 200
    ensures VerifyResponseStatus(response).error.actualStatus == 404
  {
  }

  /**
   * The body must be a dict; then every required key it lacks is reported, in the
   * order required, together with the keys it has.
   */
  function VerifyResponseContainsKeys(response: APIResponse, requiredKeys: seq<string>)
    : (r: Outcome<ClientError>)
    ensures !response.body.JObject? ==> r == Fail(BodyNotObject(response.body))
    ensures response.body.JObject? ==>
      (r.Pass? <==> forall k :: k in requiredKeys ==> k in response.body.fields)
    ensures response.body.JObject? && r.Fail? ==>
      && r.error == MissingKeys(Missing(requiredKeys, response.body), response.body.fields.Keys)
      && r.error.missing != []
  {
    if !response.body.JObject? then Fail(BodyNotObject(response.body))
    else
      var missing := Missing(requiredKeys, response.body);
      NothingMissing(requiredKeys, response.body);
      if missing != [] then Fail(MissingKeys(missing, response.body.fields.Keys)) else Pass
  }
}
