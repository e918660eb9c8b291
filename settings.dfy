/** The library settings: defaults, user overrides read lazily from the
    environment, import-string coercion and per-attribute caching. */
module Settings {
  import opened Wrappers
  import opened Dicts
  import opened Values

  const ENV_KEY := "GRAPHENE_ELASTIC"
  const MAX_LIMIT_KEY := "RELAY_CONNECTION_MAX_LIMIT"
  const ENFORCE_KEY := "RELAY_CONNECTION_ENFORCE_FIRST_OR_LAST"
  const MIDDLEWARE_KEY := "MIDDLEWARE"

  /** `logging.ERROR`. */
  const LOGGING_ERROR := 40

  /** The defaults as written: `MIDDLEWARE` is not among them. */
  const DEFAULTS: Dict<string, Value> := [
    ("SCHEMA", Null),
    ("SCHEMA_OUTPUT", Str("schema.json")),
    ("SCHEMA_INDENT", Int(2)),
    (ENFORCE_KEY, Bool(false)),
    (MAX_LIMIT_KEY, Int(100)),
    ("LOGGING_LEVEL", Int(LOGGING_ERROR))
  ]

  /** The defaults with the `MIDDLEWARE` entry (an empty tuple) that the
      import-string list and the settings tests presuppose. */
  const DEFAULTS_WITH_MIDDLEWARE: Dict<string, Value> := DEFAULTS + [(MIDDLEWARE_KEY, List([]))]

  /** The settings that may be given in import-string notation. */
  const IMPORT_STRINGS: seq<string> := [MIDDLEWARE_KEY, "SCHEMA"]

  /** `import_from_string`, which resolves a dotted path to an object, is a
      parameter: it either yields the object or raises ImportError. */
  type Importer = string -> Result<Value>

  /** `[import_from_string(item) for item in val]`: an item that is not a
      string fails inside the import, which reports it as ImportError. */
  function ImportAll(items: seq<Value>, importer: Importer): (r: Result<seq<Value>>)
    ensures r.Ok? ==> |r.value| == |items|
    ensures r.Ok? ==> forall i :: 0 <= i < |items| ==> items[i].Str? && importer(items[i].s) == Ok(r.value[i])
    ensures r.Err? ==> exists i :: 0 <= i < |items| && (!items[i].Str? || importer(items[i].s).Err?)
    decreases |items|
  {
    if items == [] then Ok([])
    else if !items[0].Str? then Err(ImportError)
    else
      var first :- importer(items[0].s);
      var rest := ImportAll(items[1..], importer);
      if rest.Err? then
        var i :| 0 <= i < |items[1..]| && (!items[1..][i].Str? || importer(items[1..][i].s).Err?);
        assert items[i + 1] == items[1..][i];
        rest.PropagateFailure()
      else
        Ok([first] + rest.value)
  }

  /** `perform_import(val, setting_name)`: None stays None, a string is
      imported, each item of a list is imported, and anything else is
      returned as it is. */
  function PerformImport(val: Value, importer: Importer): (r: Result<Value>)
    ensures val.Null? ==> r == Ok(Null)
    ensures val.Str? ==> r == importer(val.s)
    ensures val.List? && r.Ok? ==> r.value.List? && |r.value.items| == |val.items|
    ensures !val.Null? && !val.Str? && !val.List? ==> r == Ok(val)
  {
    match val
    case Null => Ok(Null)
    case Str(s) => importer(s)
    case List(items) =>
      var imported :- ImportAll(items, importer);
      Ok(List(imported))
    case _ => Ok(val)
  }

  /** What reading `attr` yields for the given user settings: an attribute
      with no default is invalid; a user value wins over the default
      (`user_settings[attr]`, so user settings that are not a dict raise
      TypeError); an import-string attribute is then imported. */
  function ReadSetting(user: Value, defaults: Dict<string, Value>, importStrings: seq<string>, attr: string, importer: Importer): (r: Result<Value>)
    ensures !HasKey(defaults, attr) ==> r == Err(AttributeError)
    ensures HasKey(defaults, attr) && !user.Obj? ==> r == Err(TypeError)
    ensures HasKey(defaults, attr) && user.Obj? && attr !in importStrings ==>
      r == Ok(if HasField(user, attr) then Field(user, attr).value else GetOr(defaults, attr, Null))
    ensures HasKey(defaults, attr) && user.Obj? && attr in importStrings ==>
      r == PerformImport(if HasField(user, attr) then Field(user, attr).value else GetOr(defaults, attr, Null), importer)
  {
    if !HasKey(defaults, attr) then Err(AttributeError)
    else
      var found := Subscript(user, attr);
      var val :- if found.Ok? then found
                 else if found.error == KeyError then Ok(Get(defaults, attr).value)
                 else Err(found.error);
      if attr in importStrings then PerformImport(val, importer) else Ok(val)
  }

  /** The environment, as parsed values: `set_setting` and `get_setting`
      without the JSON encoding. */
  class Environment {
    var vars: Dict<string, Value>

    constructor(vars: Dict<string, Value>)
      ensures this.vars == vars
    {
      this.vars := vars;
    }

    /** `set_setting(key, value)`: `setdefault`, so an existing key keeps
        its value. */
    method SetSetting(key: string, value: Value)
      modifies this
      ensures vars == PutDefault(old(vars), key, value)
      ensures Get(vars, key) == Some(GetOr(old(vars), key, value))
    {
      PutDefaultProperties(vars, key, value);
      vars := PutDefault(vars, key, value);
    }

    /** `get_setting(key, default)`. */
    function GetSetting(key: string, default: Value): (r: Value)
      reads this
      ensures HasKey(vars, key) ==> Some(r) == Get(vars, key)
      ensures !HasKey(vars, key) ==> r == default
    {
      GetOr(vars, key, default)
    }
  }

  /** A setting that is set keeps its first value. */
  method SetTwice(env: Environment, key: string, a: Value, b: Value)
    modifies env
    ensures !old(HasKey(env.vars, key)) ==> env.GetSetting(key, Null) == a
    ensures old(HasKey(env.vars, key)) ==> env.GetSetting(key, Null) == old(env.GetSetting(key, Null))
  {
    env.SetSetting(key, a);
    env.SetSetting(key, b);
  }

  /** `GrapheneSettings`: `userSettings` is `_user_settings` once it is set,
      and `cache` holds the attributes stored by `setattr` after a read. */
  class GrapheneSettings {
    var userSettings: Option<Value>
    var cache: Dict<string, Value>
    const defaults: Dict<string, Value>
    const importStrings: seq<string>

    /** `GrapheneSettings(user_settings, defaults, import_strings)`: user
        settings are kept only when truthy, and falsy defaults or import
        strings fall back to the module's own. */
    constructor(user: Value, defaultsArg: Option<Dict<string, Value>>, importStringsArg: Option<seq<string>>)
      ensures userSettings == if Truthy(user) then Some(user) else None
      ensures cache == []
      ensures defaults == if defaultsArg.Some? && defaultsArg.value != [] then defaultsArg.value else DEFAULTS
      ensures importStrings == if importStringsArg.Some? && importStringsArg.value != [] then importStringsArg.value else IMPORT_STRINGS
    {
      userSettings := if Truthy(user) then Some(user) else None;
      cache := [];
      defaults := if defaultsArg.Some? && defaultsArg.value != [] then defaultsArg.value else DEFAULTS;
      importStrings := if importStringsArg.Some? && importStringsArg.value != [] then importStringsArg.value else IMPORT_STRINGS;
    }

    /** The user settings the next read sees. */
    function EffectiveUser(env: Environment): Value
      reads this, env
    {
      if userSettings.Some? then userSettings.value else env.GetSetting(ENV_KEY, Obj([]))
    }

    /** The `user_settings` property: read from the environment on first
        use, and from then on the same value. */
    method UserSettings(env: Environment) returns (v: Value)
      modifies this
      ensures v == old(EffectiveUser(env))
      ensures userSettings == Some(v)
      ensures cache == old(cache)
    {
      if userSettings.None? {
        userSettings := Some(env.GetSetting(ENV_KEY, Obj([])));
      }
      v := userSettings.value;
    }

    /** `settings.attr`: a cached attribute is found by ordinary lookup
        without consulting the user settings; otherwise the attribute is read
        as `ReadSetting` says and cached when the read succeeds. */
    method Read(attr: string, env: Environment, importer: Importer) returns (r: Result<Value>)
      modifies this
      ensures old(HasKey(cache, attr)) ==> r == Ok(old(Get(cache, attr)).value) && cache == old(cache) && userSettings == old(userSettings)
      ensures !old(HasKey(cache, attr)) ==>
        && r == ReadSetting(old(EffectiveUser(env)), defaults, importStrings, attr, importer)
        && cache == (if r.Ok? then Put(old(cache), attr, r.value) else old(cache))
        && userSettings == (if HasKey(defaults, attr) then Some(old(EffectiveUser(env))) else old(userSettings))
    {
      var cached := Get(cache, attr);
      if cached.Some? {
        return Ok(cached.value);
      }
      if !HasKey(defaults, attr) {
        return Err(AttributeError);
      }
      var user := UserSettings(env);
      r := ReadSetting(user, defaults, importStrings, attr, importer);
      if r.Ok? {
        cache := Put(cache, attr, r.value);
      }
    }
  }

  /** Once read successfully, an attribute keeps its value, whatever the
      environment holds at the second read. */
  method ReadTwice(s: GrapheneSettings, attr: string, env1: Environment, env2: Environment, importer: Importer)
    returns (first: Result<Value>, second: Result<Value>)
    modifies s
    ensures first.Ok? ==> second == first
  {
    first := s.Read(attr, env1, importer);
    if first.Ok? {
      PutProperties(old(s.cache), attr, first.value);
    }
    second := s.Read(attr, env2, importer);
  }

  /** With no user value, the connection limits default to a maximum of 100
      and no enforcement of `first`/`last`. */
  lemma DefaultLimits(importer: Importer)
    ensures ReadSetting(Obj([]), DEFAULTS, IMPORT_STRINGS, MAX_LIMIT_KEY, importer) == Ok(Int(100))
    ensures ReadSetting(Obj([]), DEFAULTS, IMPORT_STRINGS, ENFORCE_KEY, importer) == Ok(Bool(false))
  {
    FindUnique(DEFAULTS, MAX_LIMIT_KEY, 4);
    FindUnique(DEFAULTS, ENFORCE_KEY, 3);
  }

  /** A user value overrides the default. */
  lemma UserValueWins(importer: Importer)
    ensures ReadSetting(Obj([(MAX_LIMIT_KEY, Int(200))]), DEFAULTS, IMPORT_STRINGS, MAX_LIMIT_KEY, importer) == Ok(Int(200))
  {
    FindUnique(DEFAULTS, MAX_LIMIT_KEY, 4);
    FindUnique([(MAX_LIMIT_KEY, Int(200))], MAX_LIMIT_KEY, 0);
  }

  /** `SCHEMA` is an import string whose default is None, which
      `perform_import` leaves as None. */
  lemma SchemaDefaultsToNone(importer: Importer)
    ensures ReadSetting(Obj([]), DEFAULTS, IMPORT_STRINGS, "SCHEMA", importer) == Ok(Null)
  {
    FindUnique(DEFAULTS, "SCHEMA", 0);
  }

  /** As written, `MIDDLEWARE` cannot be read even when the user settings
      give it, because it has no default. */
  lemma MiddlewareUnreadable(importer: Importer)
    ensures ReadSetting(Obj([(MIDDLEWARE_KEY, Str("apps.middleware.timing_middleware"))]), DEFAULTS, IMPORT_STRINGS, MIDDLEWARE_KEY, importer)
      == Err(AttributeError)
  {
    FindUnique(DEFAULTS, MIDDLEWARE_KEY, |DEFAULTS|);
  }

  /** With the `MIDDLEWARE` default in place, a user middleware path is
      imported, and without one the empty default comes back. */
  lemma MiddlewareReadable(importer: Importer)
    ensures ReadSetting(Obj([(MIDDLEWARE_KEY, Str("apps.middleware.timing_middleware"))]), DEFAULTS_WITH_MIDDLEWARE, IMPORT_STRINGS, MIDDLEWARE_KEY, importer)
      == importer("apps.middleware.timing_middleware")
    ensures ReadSetting(Obj([]), DEFAULTS_WITH_MIDDLEWARE, IMPORT_STRINGS, MIDDLEWARE_KEY, importer) == Ok(List([]))
  {
    FindUnique(DEFAULTS_WITH_MIDDLEWARE, MIDDLEWARE_KEY, |DEFAULTS|);
    FindUnique([(MIDDLEWARE_KEY, Str("apps.middleware.timing_middleware"))], MIDDLEWARE_KEY, 0);
  }
}
