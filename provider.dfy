/**
 * The module that the `location!` macro generates for one application: a
 * process-wide, write-once provider, the nine accessors that read it, and the
 * caller's derived accessors, each memoized in a write-once cell of its own.
 */
module Provider {
  import opened Wrappers
  import opened Locations
  import opened EnvVars
  import opened Resolution

  /** A call either returns a value or panics with a message. */
  datatype Fatal<T> = Returned(value: T) | Panicked(message: string)

  const AlreadyInitialized: string := "project directories/env provider already initialized"
  const NotYetInitialized: string := "project directories/env provider not yet initialized"

  /** The body of a derived accessor, `$fn_name = $fn_expr` in the macro's input. */
  type Derivation = ProjectDirsOrEnv -> Path

  class Location {
    /** The package name the macro reads with `env!("CARGO_PKG_NAME")`. */
    const appName: string
    const envPrefix: string
    /** The platform's conventions, as `directories` implements them. */
    const dirsFrom: DirsFrom
    /** The derived accessors, by name. */
    const derived: map<string, Derivation>

    /** The `PROVIDER` cell. */
    var provider: Option<ProjectDirsOrEnv>
    /** The `VALUE` cell of each derived accessor that has been filled. */
    var values: map<string, Path>
    /** How many times each derivation has been run. */
    ghost var evaluations: multiset<string>

    /**
     * A cached value exists only once the provider is set, and is the
     * derivation applied to it; each derivation has run once if cached, never otherwise.
     */
    ghost predicate Valid()
      reads this
    {
      && values.Keys <= derived.Keys
      && (forall name :: name in values ==> provider.Some? && values[name] == derived[name](provider.value))
      && (forall name :: evaluations[name] == if name in values then 1 else 0)
    }

    /** The statics before anything has run: every cell empty. */
    constructor (appName: string, envPrefix: string, dirsFrom: DirsFrom, derived: map<string, Derivation>)
      ensures Valid()
      ensures this.appName == appName && this.envPrefix == envPrefix
      ensures this.dirsFrom == dirsFrom && this.derived == derived
      ensures provider.None? && values == map[] && evaluations == multiset{}
    {
      this.appName := appName;
      this.envPrefix := envPrefix;
      this.dirsFrom := dirsFrom;
      this.derived := derived;
      provider := None;
      values := map[];
      evaluations := multiset{};
    }

    /**
     * `initialize`: resolve first; an error is returned and the provider stays
     * as it was, so a later call may try again. A successful resolution is
     * stored if the provider is empty, and panics if it is already set.
     */
    method Initialize(environ: Environment) returns (r: Fatal<Result<(), InitializeError>>)
      requires Valid()
      modifies this`provider
      ensures Valid()
      ensures var resolved := Resolve(dirsFrom, environ, appName, envPrefix);
              && (resolved.Failure? ==> r == Returned(Failure(resolved.error)) && provider == old(provider))
              && (resolved.Success? && old(provider).Some? ==>
                    r == Panicked(AlreadyInitialized) && provider == old(provider))
              && (resolved.Success? && old(provider).None? ==>
                    r == Returned(Success(())) && provider == Some(resolved.value))
    {
      var resolved := Resolve(dirsFrom, environ, appName, envPrefix);
      if resolved.Failure? {
        return Returned(Failure(resolved.error));
      }
      if provider.Some? {
        // `OnceLock::set` refuses a second value.
        return Panicked(AlreadyInitialized);
      }
      provider := Some(resolved.value);
      r := Returned(Success(()));
    }

    /** `provider()`: the stored snapshot, or a panic before initialization. */
    method Provider() returns (r: Fatal<ProjectDirsOrEnv>)
      ensures provider.Some? ==> r == Returned(provider.value)
      ensures provider.None? ==> r == Panicked(NotYetInitialized)
    {
      match provider
      case Some(p) => r := Returned(p);
      case None => r := Panicked(NotYetInitialized);
    }

    /**
     * The accessors `cache_dir()` … `state_dir()`: the stored location of
     * kind `k`, always a path for a mandatory kind; a panic before initialization.
     */
    method Dir(k: DirKind) returns (r: Fatal<Option<Path>>)
      ensures provider.Some? ==> r == Returned(provider.value.Get(k))
      ensures provider.None? ==> r == Panicked(NotYetInitialized)
      ensures k.IsMandatory() && r.Returned? ==> r.value.Some?
    {
      var p := Provider();
      match p
      case Returned(snapshot) => r := Returned(snapshot.Get(k));
      case Panicked(message) => r := Panicked(message);
    }

    /**
     * A derived accessor: the cached value if its cell is filled; otherwise
     * the derivation applied to the provider, which is then cached. Before
     * initialization the derivation panics and the cell stays empty.
     */
    method Derived(name: string) returns (r: Fatal<Path>)
      requires Valid() && name in derived
      modifies this`values, this`evaluations
      ensures Valid()
      ensures provider.Some? ==> r == Returned(derived[name](provider.value))
      ensures provider.None? ==>
                r == Panicked(NotYetInitialized) && values == old(values) && evaluations == old(evaluations)
      ensures name in old(values) ==> values == old(values) && evaluations == old(evaluations)
      ensures name !in old(values) && provider.Some? ==>
                && values == old(values)[name := derived[name](provider.value)]
                && evaluations == old(evaluations) + multiset{name}
      // A corollary of Valid(), stated for callers: this derivation has run at most once.
      ensures evaluations[name] <= 1
    {
      if name in values {
        return Returned(values[name]);
      }
      var p := Provider();
      if p.Panicked? {
        return Panicked(p.message);
      }
      var value := derived[name](p.value);
      evaluations := evaluations + multiset{name};
      values := values[name := value];
      r := Returned(value);
    }
  }

  /** Calling a derived accessor twice gives one value, computed once. */
  method DerivedTwice(loc: Location, name: string) returns (first: Fatal<Path>, second: Fatal<Path>)
    requires loc.Valid() && name in loc.derived && loc.provider.Some?
    modifies loc`values, loc`evaluations
    ensures loc.Valid()
    ensures first == second == Returned(loc.derived[name](loc.provider.value))
    ensures loc.evaluations[name] == 1
  {
    first := loc.Derived(name);
    second := loc.Derived(name);
  }
}
