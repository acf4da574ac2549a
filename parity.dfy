/**
 * The parity check: an environment snapshot that supplies all seven mandatory
 * locations is used as it is, and the platform is never asked.
 */
module Parity {
  import opened Wrappers
  import opened Locations

  /** The environment supplies every mandatory location. */
  predicate HasMandatory(e: Env) {
    forall k: DirKind :: k.IsMandatory() ==> e.Get(k).Some?
  }

  /** Specification of `Env::parity`: the complete snapshot, or the snapshot untouched. */
  function Classify(e: Env): (r: Result<EnvParity, Env>)
    ensures r.Success? <==> HasMandatory(e)
    ensures r.Success? ==> forall k: DirKind :: r.value.Get(k) == e.Get(k)
    ensures r.Failure? ==> r.error == e
  {
    if e.cacheDir.None? || e.configDir.None? || e.configLocalDir.None? || e.dataDir.None?
       || e.dataLocalDir.None? || e.preferenceDir.None? || e.projectPath.None?
    then
      assert e.Get(Cache).None? || e.Get(Config).None? || e.Get(ConfigLocal).None?
             || e.Get(Data).None? || e.Get(DataLocal).None? || e.Get(Preference).None?
             || e.Get(Project).None?;
      Failure(e)
    else Success(EnvParity(e.cacheDir.value, e.configDir.value, e.configLocalDir.value,
                           e.dataDir.value, e.dataLocalDir.value, e.preferenceDir.value,
                           e.projectPath.value, e.runtimeDir, e.stateDir))
  }

  /** The runtime and state overrides never decide the outcome of the check. */
  lemma OptionalFieldsIrrelevant(e: Env, runtime: Option<Path>, state: Option<Path>)
    ensures Classify(e.(runtimeDir := runtime, stateDir := state)).Success? == Classify(e).Success?
  {
  }

  /** An `Env` held in a `mut` binding, whose fields `take()` empties. */
  class MutableEnv {
    var cacheDir: Option<Path>
    var configDir: Option<Path>
    var configLocalDir: Option<Path>
    var dataDir: Option<Path>
    var dataLocalDir: Option<Path>
    var preferenceDir: Option<Path>
    var projectPath: Option<Path>
    var runtimeDir: Option<Path>
    var stateDir: Option<Path>

    /** The snapshot the fields currently hold. */
    function Value(): Env
      reads this
    {
      Env(cacheDir, configDir, configLocalDir, dataDir, dataLocalDir,
          preferenceDir, projectPath, runtimeDir, stateDir)
    }

    constructor (e: Env)
      ensures Value() == e
    {
      cacheDir, configDir, configLocalDir := e.cacheDir, e.configDir, e.configLocalDir;
      dataDir, dataLocalDir, preferenceDir := e.dataDir, e.dataLocalDir, e.preferenceDir;
      projectPath, runtimeDir, stateDir := e.projectPath, e.runtimeDir, e.stateDir;
    }

    /**
     * `Env::_parity`: returns before touching any field when a mandatory one is
     * missing; otherwise moves all nine values out and leaves every field `None`.
     */
    method TakeParity() returns (p: Option<EnvParity>)
      modifies this
      ensures p.Some? <==> HasMandatory(old(Value()))
      ensures p.Some? ==> p.value == Classify(old(Value())).value && Value() == EmptyEnv
      ensures p.None? ==> Value() == old(Value())
    {
      // The config_dir test appears twice in `_parity`'s condition; the repeat changes nothing.
      if cacheDir.None? || configDir.None? || configDir.None?
         || configLocalDir.None? || dataDir.None?
         || dataLocalDir.None? || preferenceDir.None?
         || projectPath.None? {
        ghost var e := Value();
        assert e.Get(Cache).None? || e.Get(Config).None? || e.Get(ConfigLocal).None?
               || e.Get(Data).None? || e.Get(DataLocal).None? || e.Get(Preference).None?
               || e.Get(Project).None?;
        return None;
      }
      // Each `take()?` below finds `Some`, because the test above has passed.
      var cache := cacheDir.value;
      cacheDir := None;
      var config := configDir.value;
      configDir := None;
      var configLocal := configLocalDir.value;
      configLocalDir := None;
      var data := dataDir.value;
      dataDir := None;
      var dataLocal := dataLocalDir.value;
      dataLocalDir := None;
      var preference := preferenceDir.value;
      preferenceDir := None;
      var project := projectPath.value;
      projectPath := None;
      var runtime := runtimeDir;
      runtimeDir := None;
      var state := stateDir;
      stateDir := None;
      p := Some(EnvParity(cache, config, configLocal, data, dataLocal, preference, project,
                          runtime, state));
    }
  }

  /** `Env::parity`: the complete snapshot, or the `Env` handed back as it came in. */
  method Parity(e: Env) returns (r: Result<EnvParity, Env>)
    ensures r == Classify(e)
    ensures r.Success? <==> HasMandatory(e)
    ensures r.Failure? ==> r.error == e
  {
    var cell := new MutableEnv(e);
    var p := cell.TakeParity();
    match p
    case Some(parity) => r := Success(parity);
    case None => r := Failure(cell.Value());
  }
}
