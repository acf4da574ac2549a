/**
 * Reading the environment overrides: `Env::new` looks up nine variables
 * named by the application's prefix and turns each into an optional path.
 */
module EnvVars {
  import opened Wrappers
  import opened Locations

  /** An OS string: text when it decodes as Unicode, otherwise its raw bytes. */
  datatype OsString = Unicode(text: string) | NotUnicode(raw: seq<bv8>)

  /** The process environment; a variable that is not set has no key. */
  type Environment = map<string, OsString>

  /** The two ways `std::env::var` fails. */
  datatype VarError = NotPresent | NotUnicodeValue(raw: seq<bv8>)

  /** The error of `Env::new`: the variable's name and its undecodable value. */
  datatype EnvVarNotUnicodeError = EnvVarNotUnicodeError(name: string, value: seq<bv8>)

  /** `std::env::var` over the modelled environment. */
  function Var(environ: Environment, key: string): Result<string, VarError> {
    if key !in environ then Failure(NotPresent)
    else match environ[key]
      case Unicode(s) => Success(s)
      case NotUnicode(raw) => Failure(NotUnicodeValue(raw))
  }

  /** The name of the variable that overrides location `k`. */
  function Key(prefix: string, k: DirKind): string {
    prefix + k.Suffix()
  }

  /** The closure `x` of `Env::new`: one variable, three outcomes. */
  function Lookup(environ: Environment, prefix: string, suffix: string)
    : (r: Result<Option<Path>, EnvVarNotUnicodeError>)
    ensures prefix + suffix !in environ ==> r == Success(None)
    ensures prefix + suffix in environ && environ[prefix + suffix].Unicode? ==>
              r == Success(Some(environ[prefix + suffix].text))
    ensures prefix + suffix in environ && environ[prefix + suffix].NotUnicode? ==>
              r == Failure(EnvVarNotUnicodeError(prefix + suffix, environ[prefix + suffix].raw))
  {
    var key := prefix + suffix;
    match Var(environ, key)
    case Success(value) => Success(Some(value))
    case Failure(NotPresent) => Success(None)
    case Failure(NotUnicodeValue(value)) => Failure(EnvVarNotUnicodeError(key, value))
  }

  /** The variable for `k` is set but does not hold Unicode text. */
  predicate NotUnicodeAt(environ: Environment, prefix: string, k: DirKind) {
    Key(prefix, k) in environ && environ[Key(prefix, k)].NotUnicode?
  }

  /** The override for `k` when its variable is absent or Unicode. */
  function Override(environ: Environment, prefix: string, k: DirKind): Option<Path> {
    if Key(prefix, k) in environ && environ[Key(prefix, k)].Unicode?
    then Some(environ[Key(prefix, k)].text)
    else None
  }

  /** The error that names the variable for `k`. */
  function ErrorAt(environ: Environment, prefix: string, k: DirKind): EnvVarNotUnicodeError
    requires NotUnicodeAt(environ, prefix, k)
  {
    EnvVarNotUnicodeError(Key(prefix, k), environ[Key(prefix, k)].raw)
  }

  /** Reference definition of fail-fast: the first kind of `ks` whose variable is not Unicode. */
  function FirstNotUnicode(environ: Environment, prefix: string, ks: seq<DirKind>)
    : (r: Option<nat>)
    ensures r.Some? ==> r.value < |ks| && NotUnicodeAt(environ, prefix, ks[r.value])
    ensures r.Some? ==> forall j :: 0 <= j < r.value ==> !NotUnicodeAt(environ, prefix, ks[j])
    ensures r.None? ==> forall j :: 0 <= j < |ks| ==> !NotUnicodeAt(environ, prefix, ks[j])
  {
    if ks == [] then None
    else if NotUnicodeAt(environ, prefix, ks[0]) then Some(0)
    else match FirstNotUnicode(environ, prefix, ks[1..])
      case None => None
      case Some(i) => Some(i + 1)
  }

  /** `Env::new`: the nine lookups in field order, stopping at the first error. */
  function New(environ: Environment, prefix: string): (r: Result<Env, EnvVarNotUnicodeError>)
  {
    var cacheDir :- Lookup(environ, prefix, "_CACHE_DIR");
    var configDir :- Lookup(environ, prefix, "_CONFIG_DIR");
    var configLocalDir :- Lookup(environ, prefix, "_CONFIG_LOCAL_DIR");
    var dataDir :- Lookup(environ, prefix, "_DATA_DIR");
    var dataLocalDir :- Lookup(environ, prefix, "_DATA_LOCAL_DIR");
    var preferenceDir :- Lookup(environ, prefix, "_PREFERENCE_DIR");
    var projectPath :- Lookup(environ, prefix, "_PROJECT_PATH");
    var runtimeDir :- Lookup(environ, prefix, "_RUNTIME_DIR");
    var stateDir :- Lookup(environ, prefix, "_STATE_DIR");
    Success(Env(cacheDir, configDir, configLocalDir, dataDir, dataLocalDir,
                preferenceDir, projectPath, runtimeDir, stateDir))
  }

  /** One step of `New`: the lookup of the variable for `k`. */
  lemma LookupAt(environ: Environment, prefix: string, k: DirKind)
    ensures Lookup(environ, prefix, k.Suffix()) ==
              if NotUnicodeAt(environ, prefix, k) then Failure(ErrorAt(environ, prefix, k))
              else Success(Override(environ, prefix, k))
  {
  }

  /** Reference snapshot: every location's override, read independently of the others. */
  function Overrides(environ: Environment, prefix: string): (e: Env)
    ensures forall k: DirKind :: e.Get(k) == Override(environ, prefix, k)
  {
    Env(Override(environ, prefix, Cache), Override(environ, prefix, Config),
        Override(environ, prefix, ConfigLocal), Override(environ, prefix, Data),
        Override(environ, prefix, DataLocal), Override(environ, prefix, Preference),
        Override(environ, prefix, Project), Override(environ, prefix, Runtime),
        Override(environ, prefix, State))
  }

  /** When every variable decodes, `New` is the reference snapshot. */
  lemma NewIsOverrides(environ: Environment, prefix: string)
    requires forall k: DirKind :: !NotUnicodeAt(environ, prefix, k)
    ensures New(environ, prefix) == Success(Overrides(environ, prefix))
  {
    LookupAt(environ, prefix, Cache);
    LookupAt(environ, prefix, Config);
    LookupAt(environ, prefix, ConfigLocal);
    LookupAt(environ, prefix, Data);
    LookupAt(environ, prefix, DataLocal);
    LookupAt(environ, prefix, Preference);
    LookupAt(environ, prefix, Project);
    LookupAt(environ, prefix, Runtime);
    LookupAt(environ, prefix, State);
  }

  /** `New` succeeds exactly when no variable fails to decode, and then carries every override. */
  lemma NewSucceeds(environ: Environment, prefix: string)
    ensures New(environ, prefix).Success? <==> forall k: DirKind :: !NotUnicodeAt(environ, prefix, k)
    ensures New(environ, prefix).Success? ==>
              forall k: DirKind :: New(environ, prefix).value.Get(k) == Override(environ, prefix, k)
  {
    NewFailsAtFirst(environ, prefix);
    if forall k: DirKind :: !NotUnicodeAt(environ, prefix, k) {
      NewIsOverrides(environ, prefix);
    } else {
      var k: DirKind :| NotUnicodeAt(environ, prefix, k);
      assert k in KindOrder;
    }
  }

  /** The error `New` reports names the first non-Unicode variable in field order. */
  lemma {:induction false} NewFailsAtFirst(environ: Environment, prefix: string)
    ensures match FirstNotUnicode(environ, prefix, KindOrder)
            case None => New(environ, prefix).Success?
            case Some(i) => New(environ, prefix) == Failure(ErrorAt(environ, prefix, KindOrder[i]))
  {
    LookupAt(environ, prefix, Cache);
    LookupAt(environ, prefix, Config);
    LookupAt(environ, prefix, ConfigLocal);
    LookupAt(environ, prefix, Data);
    LookupAt(environ, prefix, DataLocal);
    LookupAt(environ, prefix, Preference);
    LookupAt(environ, prefix, Project);
    LookupAt(environ, prefix, Runtime);
    LookupAt(environ, prefix, State);
    var ks := KindOrder;
    assert ks[0] == Cache && ks[1] == Config && ks[2] == ConfigLocal && ks[3] == Data;
    assert ks[4] == DataLocal && ks[5] == Preference && ks[6] == Project && ks[7] == Runtime;
    assert ks[8] == State;
    match FirstNotUnicode(environ, prefix, ks)
    case None =>
    case Some(i) =>
      // Every variable before position i decodes, so the lookups before it pass.
      if i == 0 {} else if i == 1 {} else if i == 2 {} else if i == 3 {}
      else if i == 4 {} else if i == 5 {} else if i == 6 {} else if i == 7 {} else {}
  }

  /** What `std::env::var` returns for a variable fixes whether and how it fails to decode. */
  lemma SameVarSameFailure(e1: Environment, e2: Environment, prefix: string, k: DirKind)
    requires Var(e1, Key(prefix, k)) == Var(e2, Key(prefix, k))
    ensures NotUnicodeAt(e1, prefix, k) == NotUnicodeAt(e2, prefix, k)
    ensures NotUnicodeAt(e1, prefix, k) ==> ErrorAt(e1, prefix, k) == ErrorAt(e2, prefix, k)
  {
  }

  /** Two environments whose variables fail alike up to a failure at `i` fail first at the same place. */
  lemma FirstFailureAgrees(e1: Environment, e2: Environment, prefix: string,
                             ks: seq<DirKind>, i: nat)
    requires i < |ks|
    requires NotUnicodeAt(e1, prefix, ks[i])
    requires forall j :: 0 <= j <= i ==> NotUnicodeAt(e1, prefix, ks[j]) == NotUnicodeAt(e2, prefix, ks[j])
    ensures FirstNotUnicode(e1, prefix, ks).Some?
    ensures FirstNotUnicode(e1, prefix, ks).value <= i
    ensures FirstNotUnicode(e1, prefix, ks) == FirstNotUnicode(e2, prefix, ks)
  {
  }

  /** Once a variable fails to decode, the variables after it in field order do not matter. */
  lemma LaterVariablesIrrelevant(e1: Environment, e2: Environment, prefix: string, i: nat)
    requires i < |KindOrder|
    requires NotUnicodeAt(e1, prefix, KindOrder[i])
    requires forall j :: 0 <= j <= i ==> Var(e1, Key(prefix, KindOrder[j])) == Var(e2, Key(prefix, KindOrder[j]))
    ensures New(e1, prefix).Failure?
    ensures New(e1, prefix) == New(e2, prefix)
  {
    forall j | 0 <= j <= i
      ensures NotUnicodeAt(e1, prefix, KindOrder[j]) == NotUnicodeAt(e2, prefix, KindOrder[j])
      ensures NotUnicodeAt(e1, prefix, KindOrder[j]) ==>
                ErrorAt(e1, prefix, KindOrder[j]) == ErrorAt(e2, prefix, KindOrder[j])
    {
      SameVarSameFailure(e1, e2, prefix, KindOrder[j]);
    }
    FirstFailureAgrees(e1, e2, prefix, KindOrder, i);
    NewFailsAtFirst(e1, prefix);
    NewFailsAtFirst(e2, prefix);
  }

  /** Distinct locations are overridden by distinct variables. */
  lemma KeysDistinct(prefix: string, k1: DirKind, k2: DirKind)
    requires k1 != k2
    ensures Key(prefix, k1) != Key(prefix, k2)
  {
    assert Key(prefix, k1)[|prefix|..] == k1.Suffix();
    assert Key(prefix, k2)[|prefix|..] == k2.Suffix();
  }
}
