/**
 * The values the core handles: the result of `json.loads` (and of `yaml.safe_load`),
 * together with the Python built-ins the core applies to them. Each built-in that can
 * raise returns a `Result` whose failure names the exception Python would raise.
 */
module Json {
  import opened Wrappers
  import opened Strings

  /** A JSON document. Numbers are mathematical reals; object keys are strings. */
  datatype Json =
    | JNull
    | JBool(b: bool)
    | JNumber(n: real)
    | JString(s: string)
    | JArray(elems: seq<Json>)
    | JObject(fields: map<string, Json>)

  /** The Python exceptions the core can raise on an unexpected value. */
  datatype PyError =
    | AttributeError         // a method called on a value that does not have it (`.get` on a list)
    | TypeError              // an operand of the wrong kind (`5["x"]`, `"x" in None`, `float(None)`)
    | KeyError(key: string)  // `d[k]` on a dict without `k`
    | ValueError             // `float(s)` on a string that is not a number

  /** Python truthiness (`if x:`). */
  predicate Truthy(j: Json) {
    match j
    case JNull => false
    case JBool(b) => b
    case JNumber(n) => n != 0.0
    case JString(s) => s != ""
    case JArray(e) => e != []
    case JObject(m) => m != map[]
  }

  /** `j.get(key, default)`: only a dict has `.get`. */
  function Get(j: Json, key: string, default: Json): (r: Result<Json, PyError>)
    ensures r.Success? <==> j.JObject?
    ensures r.Failure? ==> r.error == AttributeError
    ensures r.Success? && key in j.fields ==> r.value == j.fields[key]
    ensures r.Success? && key !in j.fields ==> r.value == default
  {
    match j
    case JObject(m) => Success(if key in m then m[key] else default)
    case _ => Failure(AttributeError)
  }

  /** `j[key]` with a string key. */
  function Index(j: Json, key: string): (r: Result<Json, PyError>)
    ensures r.Success? <==> j.JObject? && key in j.fields
    ensures r.Success? ==> r.value == j.fields[key]
    ensures j.JObject? && key !in j.fields ==> r == Failure(KeyError(key))
    ensures !j.JObject? ==> r == Failure(TypeError)
  {
    match j
    case JObject(m) => if key in m then Success(m[key]) else Failure(KeyError(key))
    case _ => Failure(TypeError)
  }

  /** The values a string can be searched in with `in`: dicts (keys), lists (elements), strings. */
  predicate SupportsIn(container: Json) {
    container.JObject? || container.JArray? || container.JString?
  }

  /** `key in container`, for a container that supports it. */
  predicate In(key: string, container: Json)
    requires SupportsIn(container)
  {
    match container
    case JObject(m) => key in m
    case JArray(e) => JString(key) in e
    case JString(s) => IsSubstring(key, s)
  }

  /** `r` is `s` with some elements left out, the rest kept in order. */
  ghost predicate IsSubsequence<T>(r: seq<T>, s: seq<T>)
    decreases |s|
  {
    r == [] ||
    (|s| > 0 &&
     if r[|r| - 1] == s[|s| - 1] then IsSubsequence(r[..|r| - 1], s[..|s| - 1])
     else IsSubsequence(r, s[..|s| - 1]))
  }

  /** `[k for k in required if k not in container]` */
  function Missing(required: seq<string>, container: Json): (r: seq<string>)
    requires SupportsIn(container)
    ensures |r| <= |required|
    decreases |required|
  {
    if required == [] then []
    else
      var last := required[|required| - 1];
      Missing(required[..|required| - 1], container) + (if In(last, container) then [] else [last])
  }

  /** The missing list holds exactly the required keys the container lacks. */
  lemma {:induction false} MissingMembers(required: seq<string>, container: Json)
    requires SupportsIn(container)
    ensures forall k :: k in Missing(required, container) <==> k in required && !In(k, container)
    decreases |required|
  {
    if required != [] {
      var init, last := required[..|required| - 1], required[|required| - 1];
      MissingMembers(init, container);
      assert required == init + [last];
    }
  }

  /** Each missing key appears as often as it is required. */
  lemma {:induction false} MissingCounts(required: seq<string>, container: Json)
    requires SupportsIn(container)
    ensures forall k :: multiset(Missing(required, container))[k]
                     == if In(k, container) then 0 else multiset(required)[k]
    decreases |required|
  {
    if required != [] {
      var init, last := required[..|required| - 1], required[|required| - 1];
      MissingCounts(init, container);
      assert required == init + [last];
      assert multiset(required) == multiset(init) + multiset{last};
    }
  }

  /** The missing keys keep the order in which they are required. */
  lemma {:induction false} MissingInOrder(required: seq<string>, container: Json)
    requires SupportsIn(container)
    ensures IsSubsequence(Missing(required, container), required)
    decreases |required|
  {
    if required != [] {
      var init, last := required[..|required| - 1], required[|required| - 1];
      MissingInOrder(init, container);
      var kept := Missing(init, container);
      if !In(last, container) {
        var r := kept + [last];
        assert r[..|r| - 1] == kept;
      } else {
        MissingMembers(init, container);
        assert Missing(required, container) == kept;
        assert required[..|required| - 1] == init;
        if kept != [] {
          assert kept[|kept| - 1] in kept;
          assert kept[|kept| - 1] != required[|required| - 1];
        }
      }
    }
  }

  /** Nothing is missing exactly when every required key is present. */
  lemma NothingMissing(required: seq<string>, container: Json)
    requires SupportsIn(container)
    ensures Missing(required, container) == [] <==> forall k :: k in required ==> In(k, container)
  {
  }

  /** Extending the required list by one key extends the missing list by at most that key. */
  lemma MissingSnoc(required: seq<string>, k: string, container: Json)
    requires SupportsIn(container)
    ensures Missing(required + [k], container)
         == Missing(required, container) + (if In(k, container) then [] else [k])
  {
  }

  /** `float(j)`: numbers as they are, bools as 1.0 and 0.0, strings through the parser. */
  function ToFloat(j: Json, parseFloat: string -> Option<real>): (r: Result<real, PyError>)
    ensures j.JNumber? ==> r == Success(j.n)
    ensures j.JBool? ==> r == Success(if j.b then 1.0 else 0.0)
    ensures j.JString? ==> (r.Success? <==> parseFloat(j.s).Some?)
    ensures j.JString? && r.Success? ==> r.value == parseFloat(j.s).value
    ensures j.JString? && r.Failure? ==> r.error == ValueError
    ensures j.JNull? || j.JArray? || j.JObject? ==> r == Failure(TypeError)
  {
    match j
    case JNumber(n) => Success(n)
    case JBool(b) => Success(if b then 1.0 else 0.0)
    case JString(s) => (match parseFloat(s) case Some(x) => Success(x) case None => Failure(ValueError))
    case _ => Failure(TypeError)
  }
}
