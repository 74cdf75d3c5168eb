/** One environment's configuration record, its built-in defaults and its
    construction from a configuration-file path (src/config/basic_config.rs). */
module BasicConfigs {
  import opened Wrappers
  import opened Paths
  import opened ConfigErrors
  import opened Environments

  type u16 = x: int | 0 <= x < 0x1_0000
  type u32 = x: int | 0 <= x < 0x1_0000_0000

  datatype Database = Database(adapter: string, dbName: string, pool: u32)

  datatype BasicConfig = BasicConfig(
    environment: Environment,
    address: string,
    port: u16,
    database: Option<Database>,
    workers: Option<u16>,
    configFilePath: Option<Path>,
    rootPath: Option<Path>)
  {
    /** `set_root`: the root directory becomes `path`; every other field
        keeps its value. */
    function SetRoot(path: Path): (r: BasicConfig)
      ensures r.rootPath == Some(path)
      ensures SameSettings(r, this) && r.configFilePath == configFilePath
    {
      this.(rootPath := Some(path))
    }

    /** The hand-written `PartialEq::eq`: only address, port and workers take
        part. */
    predicate Eq(other: BasicConfig)
    {
      address == other.address && port == other.port && workers == other.workers
    }
  }

  /** Agreement on every field except the two paths. */
  predicate SameSettings(a: BasicConfig, b: BasicConfig)
  {
    && a.environment == b.environment
    && a.address == b.address
    && a.port == b.port
    && a.database == b.database
    && a.workers == b.workers
  }

  const DEFAULT_PORT: u16 := 8000

  /** The message carried by `BadFilePath` when a path has no parent. */
  const ROOTED_MSG: string := "Configuration files must be rooted in a directory"

  /** `(num_cpus::get() * 2) as u16`: twice the processor count, truncated to
      sixteen bits. */
  function DefaultWorkers(cpus: nat): (w: u16)
    ensures cpus < 0x8000 ==> w == 2 * cpus
    ensures (w - 2 * cpus) % 0x1_0000 == 0
  {
    (2 * cpus) % 0x1_0000
  }

  /** `default(env)`: total over the environments; only the address depends on
      the environment, loopback for development and every interface otherwise.
      `cpus` stands for `num_cpus::get()`. */
  function Default(env: Environment, cpus: nat): (r: BasicConfig)
    ensures r.environment == env
    ensures r.address == if env == Development then "localhost" else "0.0.0.0"
    ensures r.port == 8000 && r.workers == Some(DefaultWorkers(cpus))
    ensures r.database.None? && r.configFilePath.None? && r.rootPath.None?
  {
    var base := BasicConfig(Development, "localhost", DEFAULT_PORT, None,
                            Some(DefaultWorkers(cpus)), None, None);
    match env
    case Development => base.(environment := Development)
    case Staging => base.(environment := Staging, address := "0.0.0.0")
    case Production => base.(environment := Production, address := "0.0.0.0")
  }

  /** `new(env)`: the public name of the defaults. */
  function New(env: Environment, cpus: nat): (r: BasicConfig)
    ensures r == Default(env, cpus)
  {
    Default(env, cpus)
  }

  /** `from(env, path)`: the defaults of `env`, rooted in the directory that
      holds `path`; a path without a parent is refused. */
  function From(env: Environment, path: Path, cpus: nat): (r: Result<BasicConfig, ConfigError>)
    ensures r.Err? <==> Parent(path).None?
    ensures r.Err? ==> r.error == BadFilePath(path, ROOTED_MSG)
    ensures r.Ok? ==> && SameSettings(r.value, Default(env, cpus))
                      && r.value.rootPath == Parent(path)
                      && r.value.configFilePath == Some(path)
  {
    var config := Default(env, cpus);
    match Parent(path)
    case Some(parent) => Ok(config.SetRoot(parent).(configFilePath := Some(path)))
    case None => Err(BadFilePath(path, ROOTED_MSG))
  }

  /** The narrow equality is the equality of the (address, port, workers)
      projection, hence an equivalence relation that ignores the environment,
      the database and the paths. */
  lemma EqIsProjectionEquality(a: BasicConfig, b: BasicConfig)
    ensures a.Eq(b) <==> (a.address, a.port, a.workers) == (b.address, b.port, b.workers)
    ensures a.Eq(a) && (a.Eq(b) ==> b.Eq(a))
    ensures forall c: BasicConfig :: a.Eq(b) && b.Eq(c) ==> a.Eq(c)
  {
  }

  /** Development differs from the other two environments under the narrow
      equality; staging and production compare equal. */
  lemma DefaultsCompared(cpus: nat)
    ensures !Default(Development, cpus).Eq(Default(Staging, cpus))
    ensures !Default(Development, cpus).Eq(Default(Production, cpus))
    ensures Default(Staging, cpus).Eq(Default(Production, cpus))
  {
  }

  /** The worker count does not depend on the environment. */
  lemma WorkersSameAcrossEnvironments(e1: Environment, e2: Environment, cpus: nat)
    ensures Default(e1, cpus).workers == Default(e2, cpus).workers
  {
  }

  /** Rooting in a directory does not change how a record compares. */
  lemma FromEqualsDefault(env: Environment, path: Path, cpus: nat)
    requires Parent(path).Some?
    ensures From(env, path, cpus).Ok? && From(env, path, cpus).value.Eq(Default(env, cpus))
  {
  }

  /** "/" and "" are refused, while a bare file name is accepted with the
      empty relative path as its root. */
  lemma FromEdgeCases(env: Environment, name: string, cpus: nat)
    ensures From(env, Path(true, []), cpus) == Err(BadFilePath(Path(true, []), ROOTED_MSG))
    ensures From(env, Path(false, []), cpus).Err?
    ensures From(env, Path(false, [name]), cpus).Ok?
    ensures From(env, Path(false, [name]), cpus).value.rootPath == Some(Path(false, []))
  {
  }
}
