/**
 * The records the location resolver passes around: the nine directory kinds,
 * the environment snapshot `Env`, the complete snapshot `EnvParity`, the
 * platform's `ProjectDirs` and the published `ProjectDirsOrEnv`.
 */
module Locations {
  import opened Wrappers

  /** A filesystem path. `PathBuf::from(String)` keeps the text as it is. */
  type Path = string

  /** The nine locations; seven are always resolvable, runtime and state are optional. */
  datatype DirKind =
    | Cache | Config | ConfigLocal | Data | DataLocal | Preference | Project
    | Runtime | State
  {
    predicate IsMandatory() {
      !Runtime? && !State?
    }

    /** The text appended to the application's prefix to name its environment variable. */
    function Suffix(): string {
      match this
      case Cache => "_CACHE_DIR"
      case Config => "_CONFIG_DIR"
      case ConfigLocal => "_CONFIG_LOCAL_DIR"
      case Data => "_DATA_DIR"
      case DataLocal => "_DATA_LOCAL_DIR"
      case Preference => "_PREFERENCE_DIR"
      case Project => "_PROJECT_PATH"
      case Runtime => "_RUNTIME_DIR"
      case State => "_STATE_DIR"
    }
  }

  /** The order in which the fields of `Env` are read from the environment. */
  const KindOrder: seq<DirKind> :=
    [Cache, Config, ConfigLocal, Data, DataLocal, Preference, Project, Runtime, State]

  /** What the environment says about each location; `None` when the variable is not set. */
  datatype Env = Env(
    cacheDir: Option<Path>,
    configDir: Option<Path>,
    configLocalDir: Option<Path>,
    dataDir: Option<Path>,
    dataLocalDir: Option<Path>,
    preferenceDir: Option<Path>,
    projectPath: Option<Path>,
    runtimeDir: Option<Path>,
    stateDir: Option<Path>)
  {
    /** The `Provider` accessors of `Env`: each field as it is. */
    function Get(k: DirKind): Option<Path> {
      match k
      case Cache => cacheDir
      case Config => configDir
      case ConfigLocal => configLocalDir
      case Data => dataDir
      case DataLocal => dataLocalDir
      case Preference => preferenceDir
      case Project => projectPath
      case Runtime => runtimeDir
      case State => stateDir
    }
  }

  /** An `Env` with no field set. */
  const EmptyEnv := Env(None, None, None, None, None, None, None, None, None)

  /** An environment snapshot that supplies every mandatory location. */
  datatype EnvParity = EnvParity(
    cacheDir: Path,
    configDir: Path,
    configLocalDir: Path,
    dataDir: Path,
    dataLocalDir: Path,
    preferenceDir: Path,
    projectPath: Path,
    runtimeDir: Option<Path>,
    stateDir: Option<Path>)
  {
    function Get(k: DirKind): (r: Option<Path>)
      ensures k.IsMandatory() ==> r.Some?
    {
      match k
      case Cache => Some(cacheDir)
      case Config => Some(configDir)
      case ConfigLocal => Some(configLocalDir)
      case Data => Some(dataDir)
      case DataLocal => Some(dataLocalDir)
      case Preference => Some(preferenceDir)
      case Project => Some(projectPath)
      case Runtime => runtimeDir
      case State => stateDir
    }
  }

  /** The platform's conventional directories for one application (`directories::ProjectDirs`). */
  datatype PlatformDirs = PlatformDirs(
    cacheDir: Path,
    configDir: Path,
    configLocalDir: Path,
    dataDir: Path,
    dataLocalDir: Path,
    preferenceDir: Path,
    projectPath: Path,
    runtimeDir: Option<Path>,
    stateDir: Option<Path>)
  {
    /** The `Provider` accessors of `ProjectDirs`: `Some` for every mandatory location. */
    function Get(k: DirKind): (r: Option<Path>)
      ensures k.IsMandatory() ==> r.Some?
    {
      match k
      case Cache => Some(cacheDir)
      case Config => Some(configDir)
      case ConfigLocal => Some(configLocalDir)
      case Data => Some(dataDir)
      case DataLocal => Some(dataLocalDir)
      case Preference => Some(preferenceDir)
      case Project => Some(projectPath)
      case Runtime => runtimeDir
      case State => stateDir
    }
  }

  /** The resolved snapshot that is published: every mandatory location is a path. */
  datatype ProjectDirsOrEnv = ProjectDirsOrEnv(
    cacheDir: Path,
    configDir: Path,
    configLocalDir: Path,
    dataDir: Path,
    dataLocalDir: Path,
    preferenceDir: Path,
    projectPath: Path,
    runtimeDir: Option<Path>,
    stateDir: Option<Path>)
  {
    /** The public accessors; a mandatory location is always present. */
    function Get(k: DirKind): (r: Option<Path>)
      ensures k.IsMandatory() ==> r.Some?
    {
      match k
      case Cache => Some(cacheDir)
      case Config => Some(configDir)
      case ConfigLocal => Some(configLocalDir)
      case Data => Some(dataDir)
      case DataLocal => Some(dataLocalDir)
      case Preference => Some(preferenceDir)
      case Project => Some(projectPath)
      case Runtime => runtimeDir
      case State => stateDir
    }
  }
}
