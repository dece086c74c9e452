/**
 * The test-data loader of `src/utils/data_loader.py`: YAML and JSON files under a
 * base directory, read through one cache keyed by the normalised file name, and the
 * lookups the tests make in them. Opening, reading and parsing a file is the
 * `files` function the loader is given.
 */
module DataLoading {
  import opened Wrappers
  import opened Strings
  import opened Json

  datatype Format = Yaml | JsonFile

  /** Why reading a file raised: it is absent, it does not parse, or anything else. */
  datatype LoadError = FileNotFound | ParseError | OtherError

  /** Why a lookup raised: the file could not be loaded, or the data lacks the key. */
  datatype DataError = LoadFailed(cause: LoadError) | LookupFailed(error: PyError)

  /** The file system and parser: the document in `base/name` read in `format`. */
  type Files = (Format, string, string) -> Result<Json, LoadError>

  predicate IsYamlName(name: string) {
    EndsWith(name, ".yaml") || EndsWith(name, ".yml")
  }

  /** A name ending in neither ".yaml" nor ".yml" gets ".yaml" appended. */
  function YamlName(filename: string): (r: string)
    ensures IsYamlName(r)
    ensures IsYamlName(filename) ==> r == filename
    ensures !IsYamlName(filename) ==> r == filename + ".yaml"
  {
    if !IsYamlName(filename) then
      assert (filename + ".yaml")[|filename|..] == ".yaml";
      filename + ".yaml"
    else filename
  }

  /** A name not ending in ".json" gets ".json" appended. */
  function JsonName(filename: string): (r: string)
    ensures EndsWith(r, ".json")
    ensures EndsWith(filename, ".json") ==> r == filename
    ensures !EndsWith(filename, ".json") ==> r == filename + ".json"
  {
    if !EndsWith(filename, ".json") then
      assert (filename + ".json")[|filename|..] == ".json";
      filename + ".json"
    else filename
  }

  /** Normalising a name twice is normalising it once. */
  lemma NamesIdempotent(filename: string)
    ensures YamlName(YamlName(filename)) == YamlName(filename)
    ensures JsonName(JsonName(filename)) == JsonName(filename)
  {
  }

  /**
   * A YAML name and a JSON name never coincide, so the one cache the two loads
   * share never hands a file of one format to a load of the other.
   */
  lemma NamesDisjoint(a: string, b: string)
    ensures YamlName(a) != JsonName(b)
  {
    var y, j := YamlName(a), JsonName(b);
    if EndsWith(y, ".yaml") {
      assert y[|y| - 1] == y[|y| - 5..][4] == 'l';
    } else {
      assert y[|y| - 1] == y[|y| - 4..][3] == 'l';
    }
    assert j[|j| - 1] == j[|j| - 5..][4] == 'n';
  }

  /** The name a load of `filename` in `format` reads and caches. */
  function CacheKey(format: Format, filename: string): (r: string)
    ensures format == Yaml ==> IsYamlName(r)
    ensures format == JsonFile ==> EndsWith(r, ".json")
  {
    match format
    case Yaml => YamlName(filename)
    case JsonFile => JsonName(filename)
  }

  /** The format a cached name was read in, known from its extension. */
  function FormatOf(name: string): Format {
    if IsYamlName(name) then Yaml else JsonFile
  }

  /** A name ending in ".json" ends in neither YAML extension. */
  lemma JsonNameIsNotYaml(name: string)
    requires EndsWith(name, ".json")
    ensures !IsYamlName(name)
  {
  }

  lemma FormatOfKey(format: Format, filename: string)
    ensures FormatOf(CacheKey(format, filename)) == format
  {
  }

  /** The two data files the lookups read. */
  lemma FixedNames()
    ensures YamlName("users") == "users.yaml"
    ensures YamlName("api_expected") == "api_expected.yaml"
  {
    assert !EndsWith("users", ".yaml") by { assert "users"[0] != ".yaml"[0]; }
    assert !EndsWith("users", ".yml") by { assert "users"[1] != ".yml"[0]; }
    assert YamlName("users") == "users" + ".yaml";
    assert !EndsWith("api_expected", ".yaml") by { assert "api_expected"[7] != ".yaml"[0]; }
    assert !EndsWith("api_expected", ".yml") by { assert "api_expected"[8] != ".yml"[0]; }
    assert YamlName("api_expected") == "api_expected" + ".yaml";
  }

  /** `users["saucedemo_users"][user_type]`, then its username and password. */
  function Credentials(users: Json, userType: string): (r: Result<map<string, Json>, PyError>)
    ensures r.Success? <==>
      && users.JObject? && "saucedemo_users" in users.fields
      && users.fields["saucedemo_users"].JObject? && userType in users.fields["saucedemo_users"].fields
      && var user := users.fields["saucedemo_users"].fields[userType];
         user.JObject? && "username" in user.fields && "password" in user.fields
    ensures r.Success? ==>
      var user := users.fields["saucedemo_users"].fields[userType].fields;
      && r.value.Keys == {"username", "password"}
      && r.value["username"] == user["username"] && r.value["password"] == user["password"]
    ensures r.Failure? ==> r.error == TypeError || r.error.KeyError?
  {
    var group :- Index(users, "saucedemo_users");
    var user :- Index(group, userType);
    var username :- Index(user, "username");
    var password :- Index(user, "password");
    Success(map["username" := username, "password" := password])
  }

  /** An unknown user type raises a KeyError that names it. */
  lemma UnknownUserType(users: Json, userType: string)
    requires users.JObject? && "saucedemo_users" in users.fields
    requires users.fields["saucedemo_users"].JObject?
    requires userType !in users.fields["saucedemo_users"].fields
    ensures Credentials(users, userType) == Failure(KeyError(userType))
  {
  }

  /** `api_expected["airportgap_api"]["airports"]` */
  function ExpectedAirports(apiData: Json): (r: Result<Json, PyError>)
    ensures r.Success? <==>
      && apiData.JObject? && "airportgap_api" in apiData.fields
      && apiData.fields["airportgap_api"].JObject? && "airports" in apiData.fields["airportgap_api"].fields
    ensures r.Success? ==> r.value == apiData.fields["airportgap_api"].fields["airports"]
  {
    var api :- Index(apiData, "airportgap_api");
    Index(api, "airports")
  }

  /** `api_expected["airportgap_api"]["distance_calculations"][route]` */
  function ExpectedDistance(apiData: Json, route: string): (r: Result<Json, PyError>)
    ensures r.Success? <==>
      && apiData.JObject? && "airportgap_api" in apiData.fields
      && var api := apiData.fields["airportgap_api"];
         && api.JObject? && "distance_calculations" in api.fields
         && api.fields["distance_calculations"].JObject?
         && route in api.fields["distance_calculations"].fields
    ensures r.Success? ==>
      r.value == apiData.fields["airportgap_api"].fields["distance_calculations"].fields[route]
  {
    var api :- Index(apiData, "airportgap_api");
    var calculations :- Index(api, "distance_calculations");
    Index(calculations, route)
  }

  function Lookup<T>(loaded: Result<Json, LoadError>, lookup: Json -> Result<T, PyError>)
    : (r: Result<T, DataError>)
    ensures loaded.Failure? ==> r == Failure(LoadFailed(loaded.error))
    ensures loaded.Success? && lookup(loaded.value).Success? ==> r == Success(lookup(loaded.value).value)
    ensures loaded.Success? && lookup(loaded.value).Failure? ==>
      r == Failure(LookupFailed(lookup(loaded.value).error))
  {
    match loaded
    case Failure(e) => Failure(LoadFailed(e))
    case Success(data) =>
      match lookup(data)
      case Success(v) => Success(v)
      case Failure(e) => Failure(LookupFailed(e))
  }

  class DataLoader {
    const basePath: string
    const files: Files
    var cache: map<string, Json>

    /** What a load of `name` in `format` gives when nothing is cached. */
    function Read(format: Format, name: string): Result<Json, LoadError> {
      files(format, basePath, name)
    }

    /**
     * Every cached document is the one its file holds, read in the format its
     * extension names: as long as no caller changes a returned document, the cache
     * changes no result, only how often files are read.
     */
    ghost predicate Valid()
      reads this
    {
      forall name :: name in cache ==> Read(FormatOf(name), name) == Success(cache[name])
    }

    /** An absent or empty base path means "testdata". */
    constructor (basePath: Option<string>, files: Files)
      ensures this.basePath == if basePath.Some? && basePath.value != "" then basePath.value else "testdata"
      ensures this.files == files
      ensures cache == map[]
      ensures Valid()
    {
      this.basePath := if basePath.Some? && basePath.value != "" then basePath.value else "testdata";
      this.files := files;
      cache := map[];
    }

    /** `load_yaml` and `load_json`: the cached document, or the file read and, if asked, cached. */
    method Load(format: Format, filename: string, useCache: bool := true) returns (r: Result<Json, LoadError>)
      requires Valid()
      modifies this
      ensures Valid()
      ensures r == Read(format, CacheKey(format, filename))
      ensures var name := CacheKey(format, filename);
        cache == if useCache && r.Success? then old(cache)[name := r.value] else old(cache)
    {
      var name := CacheKey(format, filename);
      FormatOfKey(format, filename);
      if useCache && name in cache {
        r := Success(cache[name]);
        assert cache[name := r.value] == cache;
        return;
      }
      r := files(format, basePath, name);
      if useCache && r.Success? {
        cache := cache[name := r.value];
      }
    }

    method LoadYaml(filename: string, useCache: bool := true) returns (r: Result<Json, LoadError>)
      requires Valid()
      modifies this
      ensures Valid()
      ensures r == Read(Yaml, YamlName(filename))
      ensures cache == if useCache && r.Success? then old(cache)[YamlName(filename) := r.value] else old(cache)
    {
      r := Load(Yaml, filename, useCache);
    }

    method LoadJson(filename: string, useCache: bool := true) returns (r: Result<Json, LoadError>)
      requires Valid()
      modifies this
      ensures Valid()
      ensures r == Read(JsonFile, JsonName(filename))
      ensures cache == if useCache && r.Success? then old(cache)[JsonName(filename) := r.value] else old(cache)
    {
      r := Load(JsonFile, filename, useCache);
    }

    method GetUserCredentials(userType: string := "standard_user") returns (r: Result<map<string, Json>, DataError>)
      requires Valid()
      modifies this
      ensures Valid()
      ensures r == Lookup(Read(Yaml, "users.yaml"), (users: Json) => Credentials(users, userType))
      ensures var loaded := Read(Yaml, "users.yaml");
        cache == if loaded.Success? then old(cache)["users.yaml" := loaded.value] else old(cache)
    {
      FixedNames();
      var users := LoadYaml("users", true);
      match users
      case Failure(e) =>
        r := Failure(LoadFailed(e));
      case Success(data) =>
        var credentials := Credentials(data, userType);
        r := if credentials.Success? then Success(credentials.value) else Failure(LookupFailed(credentials.error));
    }

    method GetApiExpectations(apiName: string) returns (r: Result<Json, DataError>)
      requires Valid()
      modifies this
      ensures Valid()
      ensures r == Lookup(Read(Yaml, "api_expected.yaml"), (data: Json) => Index(data, apiName))
      ensures var loaded := Read(Yaml, "api_expected.yaml");
        cache == if loaded.Success? then old(cache)["api_expected.yaml" := loaded.value] else old(cache)
    {
      FixedNames();
      var apiData := LoadYaml("api_expected", true);
      match apiData
      case Failure(e) =>
        r := Failure(LoadFailed(e));
      case Success(data) =>
        var expectations := Index(data, apiName);
        r := if expectations.Success? then Success(expectations.value) else Failure(LookupFailed(expectations.error));
    }

    method GetExpectedAirports() returns (r: Result<Json, DataError>)
      requires Valid()
      modifies this
      ensures Valid()
      ensures r == Lookup(Read(Yaml, "api_expected.yaml"), ExpectedAirports)
      ensures var loaded := Read(Yaml, "api_expected.yaml");
        cache == if loaded.Success? then old(cache)["api_expected.yaml" := loaded.value] else old(cache)
    {
      var api := GetApiExpectations("airportgap_api");
      match api
      case Failure(e) =>
        r := Failure(e);
      case Success(expectations) =>
        var airports := Index(expectations, "airports");
        r := if airports.Success? then Success(airports.value) else Failure(LookupFailed(airports.error));
    }

    method GetExpectedDistanceData(route: string := "kix_to_nrt") returns (r: Result<Json, DataError>)
      requires Valid()
      modifies this
      ensures Valid()
      ensures r == Lookup(Read(Yaml, "api_expected.yaml"), (data: Json) => ExpectedDistance(data, route))
      ensures var loaded := Read(Yaml, "api_expected.yaml");
        cache == if loaded.Success? then old(cache)["api_expected.yaml" := loaded.value] else old(cache)
    {
      var api := GetApiExpectations("airportgap_api");
      match api
      case Failure(e) =>
        r := Failure(e);
      case Success(expectations) =>
        var calculations := Index(expectations, "distance_calculations");
        if calculations.Failure? {
          r := Failure(LookupFailed(calculations.error));
        } else {
          var distance := Index(calculations.value, route);
          r := if distance.Success? then Success(distance.value) else Failure(LookupFailed(distance.error));
        }
    }

    method ClearCache()
      modifies this
      ensures cache == map[]
      ensures Valid()
    {
      cache := map[];
    }
  }

  /** `load_test_data`: "json" in any case selects JSON, anything else YAML. */
  method LoadTestData(loader: DataLoader, filename: string, fileType: string := "yaml") returns (r: Result<Json, LoadError>)
    requires loader.Valid()
    modifies loader
    ensures loader.Valid()
    ensures r == loader.Read(if Lower(fileType) == "json" then JsonFile else Yaml,
                             CacheKey(if Lower(fileType) == "json" then JsonFile else Yaml, filename))
    ensures var name := CacheKey(if Lower(fileType) == "json" then JsonFile else Yaml, filename);
      loader.cache == if r.Success? then old(loader.cache)[name := r.value] else old(loader.cache)
  {
    if Lower(fileType) == "json" {
      r := loader.LoadJson(filename, true);
    } else {
      r := loader.LoadYaml(filename, true);
    }
  }
}
