/** The set of per-environment configurations, its discovery on disk and the
    validation of a parsed configuration document (src/config/env_config.rs). */
module EnvConfigs {
  import opened Wrappers
  import opened Paths
  import opened ConfigErrors
  import opened Environments
  import opened BasicConfigs
  import opened TomlValues

  /** `CONFIG_FILENAME`, "config/env_config.toml", as path components. */
  const CONFIG_FILENAME: seq<string> := ["config", "env_config.toml"]

  /** The process state the loader reads: the `POEM_ENV` lookup, whether the
      build has debug assertions, and the processor count. */
  datatype Host = Host(variable: VarLookup, debugBuild: bool, cpus: nat)

  datatype EnvConfig = EnvConfig(activeEnv: Environment, config: map<Environment, BasicConfig>)
  {
    /** Every environment has its configuration. */
    predicate Complete()
    {
      forall e: Environment :: e in config
    }

    /** `git_mut`: the configuration of `env`; `None` stands for the panic on
        a missing entry. */
    function GitMut(env: Environment): (r: Option<BasicConfig>)
      ensures r.Some? <==> env in config
      ensures r.Some? ==> r.value == config[env]
    {
      if env in config then Some(config[env]) else None
    }

    /** The derived `PartialEq`: same active environment, same keys, and
        entries equal under the narrow equality of `BasicConfig`. */
    predicate Eq(other: EnvConfig)
    {
      && activeEnv == other.activeEnv
      && config.Keys == other.config.Keys
      && forall e :: e in config ==> config[e].Eq(other.config[e])
    }
  }

  /** The configuration file searched for in `dir`. */
  function Manifest(dir: Path): (r: Path)
    ensures r.absolute == dir.absolute && r.components == dir.components + CONFIG_FILENAME
  {
    Join(dir, CONFIG_FILENAME)
  }

  /** The `k`-th ancestor of `dir` is the nearest one holding a configuration
      file. */
  predicate NearestAt(dir: Path, fileExists: Path -> bool, k: nat)
  {
    && k <= |dir.components|
    && fileExists(Manifest(Ancestor(dir, k)))
    && forall j :: 0 <= j < k ==> !fileExists(Manifest(Ancestor(dir, j)))
  }

  /** `find`: walk up from the working directory (`None` when it cannot be
      determined) to the root, and return the first configuration file that
      `fileExists` (standing for `fs::metadata(..).is_ok()`) reports. */
  method Find(cwd: Option<Path>, fileExists: Path -> bool) returns (r: Result<Path, ConfigError>)
    ensures r.Err? ==> r.error == NotFound
    ensures cwd.None? ==> r.Err?
    ensures r.Ok? ==> cwd.Some? && exists k :: NearestAt(cwd.value, fileExists, k)
                                           && r.value == Manifest(Ancestor(cwd.value, k))
    ensures r.Err? && cwd.Some? ==>
              forall k :: 0 <= k <= |cwd.value.components| ==> !fileExists(Manifest(Ancestor(cwd.value, k)))
  {
    if cwd.None? {
      return Err(NotFound);
    }
    var start := cwd.value;
    var current := start;
    ghost var k := 0;
    while true
      invariant k <= |start.components| && current == Ancestor(start, k)
      invariant forall j :: 0 <= j < k ==> !fileExists(Manifest(Ancestor(start, j)))
      decreases |current.components|
    {
      var manifest := Manifest(current);
      if fileExists(manifest) {
        assert NearestAt(start, fileExists, k);
        return Ok(manifest);
      }
      ParentOfAncestor(start, k);
      match Parent(current)
      case Some(p) =>
        current := p;
        k := k + 1;
      case None =>
        break;
    }
    return Err(NotFound);
  }

  /** One default record, rooted in the directory of `filename` when given. */
  function Rooted(c: BasicConfig, filename: Option<Path>): BasicConfig
  {
    match filename
    case None => c
    case Some(p) => c.(rootPath := Parent(p), configFilePath := Some(p))
  }

  /** What `active_default_from` computes, stated declaratively: a path without
      a parent is refused first, then the active environment is resolved, and
      otherwise every environment gets its own (rooted) defaults. */
  function DefaultSet(filename: Option<Path>, host: Host): Result<EnvConfig, ConfigError>
  {
    if filename.Some? && Parent(filename.value).None? then
      Err(BadFilePath(filename.value, ROOTED_MSG))
    else
      match Active(host.variable, host.debugBuild)
      case Err(e) => Err(e)
      case Ok(env) => Ok(EnvConfig(env, Defaults(filename, host.cpus)))
  }

  /** The default set when every insertion succeeds. */
  function Defaults(filename: Option<Path>, cpus: nat): map<Environment, BasicConfig>
  {
    map e | e in ALL :: Rooted(Default(e, cpus), filename)
  }

  /** A map keyed by the three environments is the three insertions of its
      entries. */
  lemma ThreeInsertions<V>(d: map<Environment, V>)
    requires d.Keys == {Development, Staging, Production}
    ensures map[Development := d[Development], Staging := d[Staging], Production := d[Production]] == d
  {
  }

  /** Three insertions, one per environment, make up the default set. */
  lemma InsertedDefaults(filename: Option<Path>, cpus: nat, dev: BasicConfig, stage: BasicConfig, prod: BasicConfig)
    requires dev == Rooted(Default(Development, cpus), filename)
    requires stage == Rooted(Default(Staging, cpus), filename)
    requires prod == Rooted(Default(Production, cpus), filename)
    ensures map[Development := dev, Staging := stage, Production := prod] == Defaults(filename, cpus)
  {
    var d := Defaults(filename, cpus);
    assert d.Keys == {Development, Staging, Production} by {
      forall e: Environment
        ensures e in d <==> e in {Development, Staging, Production}
      {
        match e
        case Development => assert e in ALL;
        case Staging => assert e in ALL;
        case Production => assert e in ALL;
      }
    }
    ThreeInsertions(d);
  }

  /** `active_default_from`: insert one configuration per environment, from
      the file path when there is one, then stamp the active environment; the
      first failure is returned. */
  method ActiveDefaultFrom(filename: Option<Path>, host: Host) returns (r: Result<EnvConfig, ConfigError>)
    ensures r == DefaultSet(filename, host)
  {
    var defaults: map<Environment, BasicConfig> := map[];
    if filename.Some? {
      var path := filename.value;
      var dev :- From(Development, path, host.cpus);
      defaults := defaults[Development := dev];
      match From(Staging, path, host.cpus) {
        case Err(e) => return Err(e);
        case Ok(stage) => defaults := defaults[Staging := stage];
      }
      match From(Production, path, host.cpus) {
        case Err(e) => return Err(e);
        case Ok(prod) => defaults := defaults[Production := prod];
      }
      InsertedDefaults(filename, host.cpus, dev, defaults[Staging], defaults[Production]);
    } else {
      defaults := defaults[Development := Default(Development, host.cpus)];
      defaults := defaults[Staging := Default(Staging, host.cpus)];
      defaults := defaults[Production := Default(Production, host.cpus)];
      InsertedDefaults(filename, host.cpus, defaults[Development], defaults[Staging], defaults[Production]);
    }
    var activeEnv :- Active(host.variable, host.debugBuild);
    r := Ok(EnvConfig(activeEnv, defaults));
  }

  /** `EnvConfig::active`: the defaults of the active environment, with no
      file lookup. */
  function ActiveBasicConfig(host: Host): (r: Result<BasicConfig, ConfigError>)
    ensures r.Ok? <==> Active(host.variable, host.debugBuild).Ok?
    ensures r.Ok? ==> && r.value == Default(Active(host.variable, host.debugBuild).value, host.cpus)
                      && r.value.configFilePath.None?
    ensures r.Err? ==> r.error == Active(host.variable, host.debugBuild).error
  {
    match Active(host.variable, host.debugBuild)
    case Ok(env) => Ok(New(env, host.cpus))
    case Err(e) => Err(e)
  }

  /** The position of the first top-level entry whose value is not a table. */
  function FirstNonTable(entries: seq<(string, Value)>): (r: Option<nat>)
    ensures r.Some? ==> && r.value < |entries|
                        && !entries[r.value].1.Table?
                        && forall j :: 0 <= j < r.value ==> entries[j].1.Table?
    ensures r.None? ==> forall j :: 0 <= j < |entries| ==> entries[j].1.Table?
  {
    if entries == [] then None
    else if !entries[0].1.Table? then Some(0)
    else
      match FirstNonTable(entries[1..])
      case None => None
      case Some(i) => Some(i + 1)
  }

  /** The verdict on the top-level entries once the defaults are built: the
      first entry whose value is not a table is a type mismatch, otherwise the
      defaults are the result. */
  function CheckSections(entries: seq<(string, Value)>, filename: Path, typeStr: Value -> string,
                         config: EnvConfig): Result<EnvConfig, ConfigError>
  {
    match FirstNonTable(entries)
    case None => Ok(config)
    case Some(i) => Err(BadType(entries[i].0, "a table", typeStr(entries[i].1), Some(filename)))
  }

  /** An entry that is not a table and follows only tables is the first one. */
  lemma FirstNonTableAt(entries: seq<(string, Value)>, i: nat)
    requires i < |entries| && !entries[i].1.Table?
    requires forall j :: 0 <= j < i ==> entries[j].1.Table?
    ensures FirstNonTable(entries) == Some(i)
  {
  }

  /** `parse`: `parsed` is what the TOML parser made of `src` (its error
      message on failure) and `typeStr` stands for `Value::type_str`. A
      document must be a table of tables; the section contents are not
      applied, so success yields the defaults rooted at `filename`. */
  method Parse(src: string, filename: Path, parsed: Result<Value, string>,
               typeStr: Value -> string, host: Host)
    returns (r: Result<EnvConfig, ConfigError>)
    ensures parsed.Err? ==> r == Err(ParseError(src, filename, parsed.error, Some((2, 2))))
    ensures parsed.Ok? && !parsed.value.Table? ==>
              r == Err(ParseError(src, filename, "expected a table, found " + typeStr(parsed.value), Some((1, 1))))
    ensures parsed.Ok? && parsed.value.Table? && DefaultSet(Some(filename), host).Err? ==>
              r == DefaultSet(Some(filename), host)
    ensures parsed.Ok? && parsed.value.Table? && DefaultSet(Some(filename), host).Ok? ==>
              r == CheckSections(parsed.value.entries, filename, typeStr, DefaultSet(Some(filename), host).value)
  {
    var path := filename;
    var table: seq<(string, Value)>;
    match parsed {
      case Ok(Table(entries)) =>
        table := entries;
      case Ok(value) =>
        var err := "expected a table, found " + typeStr(value);
        return Err(ParseError(src, path, err, Some((1, 1))));
      case Err(e) =>
        return Err(ParseError(src, path, e, Some((2, 2))));
    }

    var config :- ActiveDefaultFrom(Some(filename), host);

    for i := 0 to |table|
      invariant forall j :: 0 <= j < i ==> table[j].1.Table?
    {
      var (entry, value) := table[i];
      if !value.Table? {
        FirstNonTableAt(table, i);
        return Err(BadType(entry, "a table", typeStr(value), Some(path)));
      }
    }
    return Ok(config);
  }

  /** Which failure wins: a path without a parent is reported even when the
      environment variable is also invalid; otherwise the construction fails
      exactly when the environment does not resolve, with that error, and
      succeeds with exactly the three environments as keys. */
  lemma DefaultSetOutcome(filename: Option<Path>, host: Host)
    ensures filename.Some? && Parent(filename.value).None? ==>
              DefaultSet(filename, host) == Err(BadFilePath(filename.value, ROOTED_MSG))
    ensures filename.None? || Parent(filename.value).Some? ==>
              match Active(host.variable, host.debugBuild)
              case Err(e) => DefaultSet(filename, host) == Err(e)
              case Ok(env) => && DefaultSet(filename, host).Ok?
                              && DefaultSet(filename, host).value.activeEnv == env
                              && DefaultSet(filename, host).value.config.Keys == {Development, Staging, Production}
  {
    var d := Defaults(filename, host.cpus);
    assert d.Keys == {Development, Staging, Production} by {
      forall e: Environment
        ensures e in d <==> e in {Development, Staging, Production}
      {
        match e
        case Development => assert e in ALL;
        case Staging => assert e in ALL;
        case Production => assert e in ALL;
      }
    }
  }

  /** Each entry of the default set is `from(env, path)` when a path is given
      and `default(env)` otherwise. */
  lemma DefaultSetEntries(filename: Option<Path>, host: Host, e: Environment)
    requires DefaultSet(filename, host).Ok?
    ensures e in DefaultSet(filename, host).value.config
    ensures filename.None? ==> DefaultSet(filename, host).value.config[e] == Default(e, host.cpus)
    ensures filename.Some? ==> From(e, filename.value, host.cpus) == Ok(DefaultSet(filename, host).value.config[e])
  {
    assert e in ALL by {
      match e
      case Development =>
      case Staging =>
      case Production =>
    }
  }

  /** A map keyed by the three environments is complete. */
  lemma CompleteWhenKeyedByAll(c: EnvConfig)
    requires c.config.Keys == {Development, Staging, Production}
    ensures c.Complete() && |c.config| == 3
  {
    forall e: Environment
      ensures e in c.config
    {
      assert e == Development || e == Staging || e == Production;
    }
    assert |c.config| == |c.config.Keys|;
  }

  /** After a successful construction every environment is present, so
      `git_mut` never reaches its panic. */
  lemma GitMutNeverPanics(filename: Option<Path>, host: Host, env: Environment)
    requires DefaultSet(filename, host).Ok?
    ensures DefaultSet(filename, host).value.Complete()
    ensures |DefaultSet(filename, host).value.config| == 3
    ensures DefaultSet(filename, host).value.GitMut(env).Some?
  {
    DefaultSetOutcome(filename, host);
    CompleteWhenKeyedByAll(DefaultSet(filename, host).value);
  }

  /** Under the derived equality a file-rooted default set cannot be told
      apart from the plain defaults, since the narrow equality of the records
      ignores paths. */
  lemma FileDefaultsEqualPlainDefaults(p: Path, host: Host)
    requires DefaultSet(Some(p), host).Ok?
    ensures DefaultSet(None, host).Ok?
    ensures DefaultSet(Some(p), host).value.Eq(DefaultSet(None, host).value)
  {
    var rooted, plain := DefaultSet(Some(p), host).value, DefaultSet(None, host).value;
    forall e | e in rooted.config
      ensures rooted.config[e].Eq(plain.config[e])
    {
      FromEqualsDefault(e, p, host.cpus);
    }
  }
}
