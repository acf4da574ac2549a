/**
 * `ProjectDirsOrEnv::new`: environment overrides first, then either the
 * complete environment snapshot or a merge with the platform's directories.
 */
module Resolution {
  import opened Wrappers
  import opened Locations
  import opened EnvVars
  import opened Parity

  datatype HomeDirNotFoundError = HomeDirNotFoundError

  /** Why initialization fails: the platform found no home directory, or a variable did not decode. */
  datatype InitializeError =
    | ProjectDirsError(homeDir: HomeDirNotFoundError)
    | EnvError(env: EnvVarNotUnicodeError)

  /**
   * `directories::ProjectDirs::from(qualifier, organization, application)`,
   * which follows the operating system's conventions; `None` when no home
   * directory can be found.
   */
  type DirsFrom = (string, string, string) -> Option<PlatformDirs>

  const Qualifier: string := ""
  const Organization: string := "ALinuxPerson"

  /** `ProjectDirs::new` of the `Provider` impl: the application's directories under a fixed organization. */
  function ProjectDirsNew(dirsFrom: DirsFrom, appName: string): (r: Result<PlatformDirs, HomeDirNotFoundError>)
    ensures r.Success? <==> dirsFrom(Qualifier, Organization, appName).Some?
    ensures r.Success? ==> r.value == dirsFrom(Qualifier, Organization, appName).value
  {
    match dirsFrom("", "ALinuxPerson", appName)
    case Some(dirs) => Success(dirs)
    case None => Failure(HomeDirNotFoundError)
  }

  /** `From<EnvParity> for ProjectDirsOrEnv`: every location carried over as it is. */
  function FromParity(p: EnvParity): (r: ProjectDirsOrEnv)
    ensures forall k: DirKind :: r.Get(k) == p.Get(k)
  {
    ProjectDirsOrEnv(p.cacheDir, p.configDir, p.configLocalDir, p.dataDir, p.dataLocalDir,
                     p.preferenceDir, p.projectPath, p.runtimeDir, p.stateDir)
  }

  /**
   * The hybrid branch of `ProjectDirsOrEnv::new`: an override wins over the
   * platform for each mandatory location; runtime and state are left unset.
   */
  function Merge(env: Env, dirs: PlatformDirs): (r: ProjectDirsOrEnv)
    ensures forall k: DirKind :: k.IsMandatory() ==>
              r.Get(k) == if env.Get(k).Some? then env.Get(k) else dirs.Get(k)
    ensures r.runtimeDir.None? && r.stateDir.None?
  {
    ProjectDirsOrEnv(
      env.cacheDir.UnwrapOr(dirs.cacheDir),
      env.configDir.UnwrapOr(dirs.configDir),
      env.configLocalDir.UnwrapOr(dirs.configLocalDir),
      env.dataDir.UnwrapOr(dirs.dataDir),
      env.dataLocalDir.UnwrapOr(dirs.dataLocalDir),
      env.preferenceDir.UnwrapOr(dirs.preferenceDir),
      env.projectPath.UnwrapOr(dirs.projectPath),
      None,
      None)
  }

  /** `ProjectDirsOrEnv::new(app_name, env_prefix)`. */
  function Resolve(dirsFrom: DirsFrom, environ: Environment, appName: string, envPrefix: string)
    : (r: Result<ProjectDirsOrEnv, InitializeError>)
    ensures New(environ, envPrefix).Failure? ==>
              r == Failure(EnvError(New(environ, envPrefix).error))
    ensures New(environ, envPrefix).Success? && HasMandatory(New(environ, envPrefix).value) ==>
              r.Success? && forall k: DirKind :: r.value.Get(k) == New(environ, envPrefix).value.Get(k)
    ensures New(environ, envPrefix).Success? && !HasMandatory(New(environ, envPrefix).value) ==>
              (r.Success? <==> dirsFrom(Qualifier, Organization, appName).Some?)
    ensures New(environ, envPrefix).Success? && !HasMandatory(New(environ, envPrefix).value) &&
            dirsFrom(Qualifier, Organization, appName).None? ==>
              r == Failure(ProjectDirsError(HomeDirNotFoundError))
    ensures New(environ, envPrefix).Success? && !HasMandatory(New(environ, envPrefix).value) &&
            dirsFrom(Qualifier, Organization, appName).Some? ==>
              r == Success(Merge(New(environ, envPrefix).value, dirsFrom(Qualifier, Organization, appName).value))
  {
    var env :- New(environ, envPrefix).MapFailure(e => EnvError(e));
    match Classify(env)
    case Success(parity) => Success(FromParity(parity))
    case Failure(env) =>
      var dirs :- ProjectDirsNew(dirsFrom, appName).MapFailure(e => ProjectDirsError(e));
      Success(Merge(env, dirs))
  }

  /**
   * A variable that does not decode is reported, naming the first such
   * variable in field order, whatever the platform would have said.
   */
  lemma EncodingErrorFirst(dirsFrom: DirsFrom, environ: Environment, appName: string, prefix: string, i: nat)
    requires FirstNotUnicode(environ, prefix, KindOrder) == Some(i)
    ensures Resolve(dirsFrom, environ, appName, prefix) == Failure(EnvError(ErrorAt(environ, prefix, KindOrder[i])))
  {
    NewFailsAtFirst(environ, prefix);
  }

  /**
   * When the overrides supply every mandatory location, they are the result
   * verbatim, optional ones included, and the platform is never consulted:
   * any two platform functions give the same result, so no home-directory
   * error can occur.
   */
  lemma CompleteEnvBypassesPlatform(d1: DirsFrom, d2: DirsFrom, environ: Environment, appName: string,
                                    prefix: string)
    requires forall k: DirKind :: !NotUnicodeAt(environ, prefix, k)
    requires forall k: DirKind :: k.IsMandatory() ==> Override(environ, prefix, k).Some?
    ensures Resolve(d1, environ, appName, prefix).Success?
    ensures Resolve(d1, environ, appName, prefix) == Resolve(d2, environ, appName, prefix)
    ensures forall k: DirKind :: Resolve(d1, environ, appName, prefix).value.Get(k) == Override(environ, prefix, k)
  {
    NewSucceeds(environ, prefix);
  }

  /**
   * When some mandatory override is missing, each mandatory location is its
   * override if set and the platform's otherwise; runtime and state are unset.
   */
  lemma HybridPrecedence(dirsFrom: DirsFrom, environ: Environment, appName: string, prefix: string,
                         missing: DirKind)
    requires forall k: DirKind :: !NotUnicodeAt(environ, prefix, k)
    requires missing.IsMandatory() && Override(environ, prefix, missing).None?
    ensures Resolve(dirsFrom, environ, appName, prefix).Success? <==>
              dirsFrom(Qualifier, Organization, appName).Some?
    ensures Resolve(dirsFrom, environ, appName, prefix).Failure? ==>
              Resolve(dirsFrom, environ, appName, prefix).error == ProjectDirsError(HomeDirNotFoundError)
    ensures Resolve(dirsFrom, environ, appName, prefix).Success? ==>
              var r := Resolve(dirsFrom, environ, appName, prefix).value;
              var dirs := dirsFrom(Qualifier, Organization, appName).value;
              && (forall k: DirKind :: k.IsMandatory() ==>
                    r.Get(k) == if Override(environ, prefix, k).Some? then Override(environ, prefix, k) else dirs.Get(k))
              && r.runtimeDir.None? && r.stateDir.None?
  {
    NewSucceeds(environ, prefix);
    var env := New(environ, prefix).value;
    assert env.Get(missing).None?;
    assert !HasMandatory(env);
    if dirsFrom(Qualifier, Organization, appName).Some? {
      var dirs := dirsFrom(Qualifier, Organization, appName).value;
      var r := Merge(env, dirs);
      forall k: DirKind | k.IsMandatory()
        ensures r.Get(k) == if Override(environ, prefix, k).Some? then Override(environ, prefix, k) else dirs.Get(k)
      {
        assert env.Get(k) == Override(environ, prefix, k);
      }
    }
  }

  /** With no override set at all, the mandatory locations are exactly the platform's. */
  lemma NoOverridesGivesPlatform(dirsFrom: DirsFrom, environ: Environment, appName: string, prefix: string,
                                 dirs: PlatformDirs)
    requires forall k: DirKind :: Key(prefix, k) !in environ
    requires dirsFrom(Qualifier, Organization, appName) == Some(dirs)
    ensures Resolve(dirsFrom, environ, appName, prefix) ==
              Success(ProjectDirsOrEnv(dirs.cacheDir, dirs.configDir, dirs.configLocalDir, dirs.dataDir,
                                       dirs.dataLocalDir, dirs.preferenceDir, dirs.projectPath, None, None))
  {
    NewSucceeds(environ, prefix);
    var env := New(environ, prefix).value;
    assert env.Get(Cache).None? && env.Get(Config).None? && env.Get(ConfigLocal).None?;
    assert env.Get(Data).None? && env.Get(DataLocal).None? && env.Get(Preference).None?;
    assert env.Get(Project).None? && env.Get(Runtime).None? && env.Get(State).None?;
    assert env == EmptyEnv;
  }

  /** The nine variable names for prefix `ACME`. */
  lemma AcmeKeys()
    ensures Key("ACME", Cache) == "ACME_CACHE_DIR" && Key("ACME", Config) == "ACME_CONFIG_DIR"
    ensures Key("ACME", ConfigLocal) == "ACME_CONFIG_LOCAL_DIR" && Key("ACME", Data) == "ACME_DATA_DIR"
    ensures Key("ACME", DataLocal) == "ACME_DATA_LOCAL_DIR" && Key("ACME", Preference) == "ACME_PREFERENCE_DIR"
    ensures Key("ACME", Project) == "ACME_PROJECT_PATH" && Key("ACME", Runtime) == "ACME_RUNTIME_DIR"
    ensures Key("ACME", State) == "ACME_STATE_DIR"
  {
  }

  /** Prefix `ACME` with the seven mandatory variables set and runtime and state unset. */
  const AcmeComplete: Environment := map[
    "ACME_CACHE_DIR" := Unicode("/tmp/c"),
    "ACME_CONFIG_DIR" := Unicode("/tmp/cfg"),
    "ACME_CONFIG_LOCAL_DIR" := Unicode("/tmp/cfgl"),
    "ACME_DATA_DIR" := Unicode("/tmp/d"),
    "ACME_DATA_LOCAL_DIR" := Unicode("/tmp/dl"),
    "ACME_PREFERENCE_DIR" := Unicode("/tmp/p"),
    "ACME_PROJECT_PATH" := Unicode("/tmp/proj")]

  /** Prefix `ACME` with only the cache and runtime variables set. */
  const AcmeCacheOnly: Environment := map[
    "ACME_CACHE_DIR" := Unicode("/tmp/c"),
    "ACME_RUNTIME_DIR" := Unicode("/tmp/run")]

  lemma AcmeCompleteOverrides()
    ensures New(AcmeComplete, "ACME") == Success(Env(Some("/tmp/c"), Some("/tmp/cfg"), Some("/tmp/cfgl"),
                                                     Some("/tmp/d"), Some("/tmp/dl"), Some("/tmp/p"),
                                                     Some("/tmp/proj"), None, None))
  {
    AcmeKeys();
    var environ := AcmeComplete;
    assert environ["ACME_CACHE_DIR"] == Unicode("/tmp/c");
    assert environ["ACME_CONFIG_DIR"] == Unicode("/tmp/cfg");
    assert environ["ACME_CONFIG_LOCAL_DIR"] == Unicode("/tmp/cfgl");
    assert environ["ACME_DATA_DIR"] == Unicode("/tmp/d");
    assert environ["ACME_DATA_LOCAL_DIR"] == Unicode("/tmp/dl");
    assert environ["ACME_PREFERENCE_DIR"] == Unicode("/tmp/p");
    assert environ["ACME_PROJECT_PATH"] == Unicode("/tmp/proj");
    assert "ACME_RUNTIME_DIR" !in environ && "ACME_STATE_DIR" !in environ;
    LookupAt(environ, "ACME", Cache);
    LookupAt(environ, "ACME", Config);
    LookupAt(environ, "ACME", ConfigLocal);
    LookupAt(environ, "ACME", Data);
    LookupAt(environ, "ACME", DataLocal);
    LookupAt(environ, "ACME", Preference);
    LookupAt(environ, "ACME", Project);
    LookupAt(environ, "ACME", Runtime);
    LookupAt(environ, "ACME", State);
  }

  /** With the seven mandatory variables set they are the result, and runtime and state stay unset. */
  lemma AcmeCompleteExample(dirsFrom: DirsFrom, appName: string)
    ensures Resolve(dirsFrom, AcmeComplete, appName, "ACME")
         == Success(ProjectDirsOrEnv("/tmp/c", "/tmp/cfg", "/tmp/cfgl", "/tmp/d", "/tmp/dl", "/tmp/p",
                                     "/tmp/proj", None, None))
  {
    AcmeCompleteOverrides();
  }

  lemma AcmeCacheOnlyOverrides()
    ensures New(AcmeCacheOnly, "ACME") == Success(Env(Some("/tmp/c"), None, None, None, None, None, None,
                                                      Some("/tmp/run"), None))
  {
    AcmeKeys();
    var environ := AcmeCacheOnly;
    assert "ACME_CONFIG_DIR" !in environ && "ACME_CONFIG_LOCAL_DIR" !in environ && "ACME_DATA_DIR" !in environ;
    assert "ACME_DATA_LOCAL_DIR" !in environ && "ACME_PREFERENCE_DIR" !in environ;
    assert "ACME_PROJECT_PATH" !in environ && "ACME_STATE_DIR" !in environ;
    LookupAt(environ, "ACME", Cache);
    LookupAt(environ, "ACME", Config);
    LookupAt(environ, "ACME", ConfigLocal);
    LookupAt(environ, "ACME", Data);
    LookupAt(environ, "ACME", DataLocal);
    LookupAt(environ, "ACME", Preference);
    LookupAt(environ, "ACME", Project);
    LookupAt(environ, "ACME", Runtime);
    LookupAt(environ, "ACME", State);
  }

  /**
   * With only the cache and runtime variables set, the cache override wins,
   * every other mandatory location is the platform's, and the runtime
   * override is dropped along with the platform's runtime directory.
   */
  lemma AcmeHybridExample(dirsFrom: DirsFrom, appName: string, dirs: PlatformDirs)
    requires dirsFrom(Qualifier, Organization, appName) == Some(dirs)
    ensures Resolve(dirsFrom, AcmeCacheOnly, appName, "ACME")
         == Success(ProjectDirsOrEnv("/tmp/c", dirs.configDir, dirs.configLocalDir, dirs.dataDir,
                                     dirs.dataLocalDir, dirs.preferenceDir, dirs.projectPath, None, None))
  {
    AcmeCacheOnlyOverrides();
  }
}
