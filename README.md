# Location resolution, modelled in Dafny

This project models the core of the `location` crate. The crate resolves the directories an application uses: cache, config, config-local, data, data-local, preference, project path, runtime and state. Each can come from an environment override `<PREFIX>_CACHE_DIR` … `<PREFIX>_STATE_DIR`, or from the platform's conventions as the `directories` crate computes them. The resolved snapshot is then published once, process-wide, behind the accessors that the `location!` macro generates.

The model follows the code in four parts:

- **Reading the environment** (`EnvVars`). `Env::new` looks up nine variables in a fixed field order. An unset variable gives `None`. A Unicode variable gives its text as a path. The first variable that is not Unicode aborts with an error carrying its name and its raw bytes. The environment is a map from variable name to OS string.
- **Parity check** (`Parity`). `Env::parity` yields a complete snapshot exactly when all seven mandatory fields are set; runtime and state are carried along but never decide. Otherwise it hands back the `Env` untouched, because the test runs before any field is `take()`n. `MutableEnv` models the `&mut self` with `take()`; `Classify` is the function that specifies it.
- **Resolution** (`Resolution`). `ProjectDirsOrEnv::new` reports an environment error first. A complete environment is used verbatim and the platform is never consulted. Otherwise the platform is asked, and each mandatory location takes the override if set and the platform's value if not.
- **Provider** (`Provider`). The macro's module is modelled as a class: a write-once `provider` cell and one write-once cell per derived accessor. A ghost count records how often each derivation has run.

On the hybrid path the code sets runtime and state to `None` (`location/src/lib.rs:328-329`), even when an override or the platform supplies one. Parity tests only the seven mandatory fields (`location/src/lib.rs:233-236`). The model follows both: `Resolution.Merge`, `Resolution.HybridPrecedence` and `Resolution.AcmeHybridExample` state the first, and `Parity.OptionalFieldsIrrelevant` states the second.

## Model

| member | source | states |
|---|---|---|
| `EnvVars.Var` | location/src/lib.rs:174-177 | The three outcomes of `std::env::var` that the lookup matches on: the text of a Unicode variable, `NotPresent` for an unset one, `NotUnicode` with the raw bytes otherwise. Its contract is stated through `EnvVars.Lookup` and `EnvVars.SameVarSameFailure`. |
| `EnvVars.New` | location/src/lib.rs:170-192 | `Env::new`: the nine lookups in field order, each `?` stopping at the first error. Its contract is `EnvVars.NewSucceeds` (success exactly when every variable decodes, with every field its override) and `EnvVars.NewFailsAtFirst` (the error of the first non-Unicode variable in field order). |
| `Locations.Env.Get` | location/src/lib.rs:194-228 | The `Provider for Env` accessors: each kind's field as it is. Used by `EnvVars.NewSucceeds` and `Parity.Classify` to state their contracts per kind. |
| `EnvVars.Lookup` | location/src/lib.rs:171-179 | The variable read is `prefix + suffix`. Unset gives `Success(None)`. Unicode text gives `Success(Some(text))`. A non-Unicode value gives an error whose name is that key and whose value is the raw bytes. |
| `EnvVars.LookupAt` | location/src/lib.rs:171-179 | The lookup for kind `k` fails with the error naming `k`'s variable exactly when that variable is not Unicode; otherwise it yields `k`'s override. |
| `EnvVars.SameVarSameFailure` | location/src/lib.rs:174-177 | What `std::env::var` returns for a key fully decides whether that lookup fails and with which error. |
| `EnvVars.KeysDistinct` | location/src/lib.rs:172-190 | Two different locations are overridden by two different variable names. |
| `EnvVars.FirstNotUnicode` | location/src/lib.rs:181-191 | Reference definition of fail-fast order: the index it returns holds a non-Unicode variable and every earlier index decodes; `None` means every variable in the sequence decodes. |
| `EnvVars.Overrides` | location/src/lib.rs:181-191 | Reference snapshot: each field is its own variable's override, read independently of the others. |
| `EnvVars.NewIsOverrides` | location/src/lib.rs:170-192 | When every variable decodes, `Env::new` returns exactly the reference snapshot. |
| `EnvVars.NewSucceeds` | location/src/lib.rs:170-192 | `Env::new` succeeds if and only if no variable for any of the nine kinds is non-Unicode; on success every field equals its variable's override. |
| `EnvVars.NewFailsAtFirst` | location/src/lib.rs:181-191 | If some variable does not decode, `Env::new` fails with the error for the first one in the order cache, config, config-local, data, data-local, preference, project, runtime, state. Otherwise it succeeds. |
| `EnvVars.FirstFailureAgrees` | location/src/lib.rs:181-191 | Two environments whose variables fail alike up to a failing position have the same first failure, at or before that position. |
| `EnvVars.LaterVariablesIrrelevant` | location/src/lib.rs:181-191 | Once the variable at position `i` fails to decode, changing any variable after `i` changes nothing: `Env::new` fails, with the same error. |
| `Locations.EnvParity.Get` | location/src/lib.rs:262-272 | A complete environment snapshot has a path for every mandatory kind. |
| `Locations.PlatformDirs.Get` | location/src/lib.rs:109-143 | The platform provider reports `Some` for every mandatory kind; runtime and state may be absent. |
| `Locations.ProjectDirsOrEnv.Get` | location/src/lib.rs:336-371 | The published snapshot has a path for every mandatory kind; runtime and state are optional. |
| `Parity.Classify` | location/src/lib.rs:232-259 | Parity succeeds if and only if all seven mandatory fields are set. On success all nine values, optional ones included, are carried over unchanged. On failure the same `Env` comes back. |
| `Parity.OptionalFieldsIrrelevant` | location/src/lib.rs:233-236 | Changing the runtime and state overrides never changes whether parity succeeds. |
| `Parity.MutableEnv.constructor` | location/src/lib.rs:254 | The `mut self` binding holds exactly the given `Env`. |
| `Parity.MutableEnv.TakeParity` | location/src/lib.rs:232-251 | `_parity` returns `Some` if and only if the mandatory fields were all set. Then it returns the complete snapshot of the old fields and leaves all nine fields `None`. Otherwise it returns `None` and changes no field. |
| `Parity.Parity` | location/src/lib.rs:254-259 | `parity` agrees with `Classify`: the complete snapshot when the mandatory fields are set, and otherwise the input `Env` unchanged. |
| `Resolution.ProjectDirsNew` | location/src/lib.rs:105-107 | The platform is asked with qualifier `""`, organization `ALinuxPerson` and the application's name. No answer becomes `HomeDirNotFoundError`; an answer is returned as it is. |
| `Resolution.FromParity` | location/src/lib.rs:295-308 | Converting a complete snapshot keeps every one of the nine locations. |
| `Resolution.Merge` | location/src/lib.rs:317-331 | Hybrid merge: each mandatory location is the override when set, else the platform's. Runtime and state are `None`. |
| `Resolution.Resolve` | location/src/lib.rs:312-333 | An environment error is reported first. A complete environment yields its own nine values. Otherwise a missing home directory gives `ProjectDirsError`, and a platform answer gives the hybrid merge. |
| `Resolution.EncodingErrorFirst` | location/src/lib.rs:313 | Whatever the platform function, resolution fails with the error naming the first non-Unicode variable in field order. |
| `Resolution.CompleteEnvBypassesPlatform` | location/src/lib.rs:313-316 | When every variable decodes and every mandatory override is set, resolution succeeds with exactly the overrides. The result is the same for any two platform functions, so the platform is never consulted and no home-directory error can occur. |
| `Resolution.HybridPrecedence` | location/src/lib.rs:317-331 | When a mandatory override is missing, resolution succeeds if and only if the platform answers, and fails otherwise with `ProjectDirsError`. On success each mandatory location is the override if set and else the platform's; runtime and state are `None`. |
| `Resolution.NoOverridesGivesPlatform` | location/src/lib.rs:317-331 | With no override set, the result is the platform's seven mandatory directories, with runtime and state `None`. |
| `Resolution.AcmeCompleteOverrides` | location/src/lib.rs:170-192 | For prefix `ACME` with the seven mandatory variables set, `Env::new` reads exactly those values and leaves runtime and state unset. |
| `Resolution.AcmeCompleteExample` | location/src/lib.rs:312-316 | With those seven variables set, the published snapshot is `/tmp/c` … `/tmp/proj`, with no runtime or state directory, for any platform. |
| `Resolution.AcmeCacheOnlyOverrides` | location/src/lib.rs:170-192 | For prefix `ACME` with only `ACME_CACHE_DIR` and `ACME_RUNTIME_DIR` set, `Env::new` reads exactly those two. |
| `Resolution.AcmeHybridExample` | location/src/lib.rs:317-331 | With only the cache and runtime overrides set, the cache is `/tmp/c` and the other mandatory locations are the platform's. The runtime override and the platform's runtime and state directories are dropped. |
| `Provider.Location.constructor` | location/src/lib.rs:17 | Before anything runs, the provider cell and every derived cell are empty and nothing has been computed. |
| `Provider.Location.Initialize` | location/src/lib.rs:19-25 | Resolution runs first. An error is returned and the provider is left as it was, so a later call can retry. A success is stored when the provider is empty. A success when it is already set panics with "already initialized" and changes nothing. |
| `Provider.Location.Provider` | location/src/lib.rs:27-29 | Returns the stored snapshot, or panics with "not yet initialized" before initialization. |
| `Provider.Location.Dir` | location/src/lib.rs:31-65 | Each of the nine accessors returns the stored field of its kind, which is always a path for a mandatory kind. Before initialization it panics. |
| `Provider.Location.Derived` | location/src/lib.rs:67-75 | A derived accessor returns the derivation applied to the stored snapshot. On first use it computes and caches the value, counted once. Later calls return the cached value without computing again. Before initialization it panics and nothing is cached. |
| `Provider.DerivedTwice` | location/src/lib.rs:67-75 | Two calls to one derived accessor after initialization return the same value, and the derivation has run exactly once. |

## Left out

- `config/src/formats.rs` and `src/lib.rs` are not part of this model. The first only delegates to serialization libraries; the second only formats coloured console output.
- The `directories` crate's operating-system conventions are not modelled. `ProjectDirs::from` is the parameter `dirsFrom`, an arbitrary function that may return `None`, which stands for no home directory being found.
- `std::env::var` and `OsString` decoding are not modelled. The environment is a map from names to values that are either Unicode text or raw bytes. Paths are strings, and `PathBuf::from` keeps the text.
- Thread safety of the `OnceLock` cells, and races between initializers or between memo cells, are not modelled. All calls are sequential.
- `env!("CARGO_PKG_NAME")` and the expansion of the `location!` macro are compile-time. The package name, the prefix and the map of derived accessors are fixed when a `Location` is constructed. The nine generated accessors are one method, `Dir`, taking the kind.
- Panics are an explicit `Panicked(message)` outcome that leaves the state unchanged. Unwinding and process termination are not modelled.
- A derived accessor's `fn` is a pure, total function of the snapshot. Side effects or panics inside it are not modelled.
- The `Provider` trait (lines 80-94) is not a Dafny trait. Its two impls become `PlatformDirs.Get` with `Resolution.ProjectDirsNew` (lines 101-144), and `Env.Get` with `EnvVars.New` (lines 166-229).
- The `?` after each `take()` in `_parity` is not modelled as a branch. The test just before it guarantees that every mandatory field is `Some`, so `TakeParity` reads the values directly.
