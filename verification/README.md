# Environment-bound configuration loader, modelled in Dafny

This project models the core of a small Rust library that loads a process
configuration bound to a runtime environment (development, staging,
production):

- **Environment** (`environment.dfy`, module `Environments`): the closed
  three-variant enum, its case-sensitive alias table (`from_str`), its
  canonical names (`Display`), the `is_dev`/`is_stage`/`is_prod` tests, `ALL`,
  and `active()`, which resolves the environment from the `POEM_ENV` variable
  with a build-mode fallback.
- **BasicConfig** (`basic_config.dfy`, module `BasicConfigs`): the
  per-environment record, its defaults, `new`, `set_root`, the path-derived
  constructor `from`, and the deliberately narrow `PartialEq`.
- **EnvConfig** (`env_config.dfy`, module `EnvConfigs`): the upward search
  for `config/env_config.toml` (`find`, a loop), `git_mut`, the default set
  with one record per environment (`active_default_from`, three insertions
  with `?`), `EnvConfig::active`, and the shape check of a parsed document
  (`parse`, an early-exit `for` loop).
- **ConfigError** (`error.dfy`, module `ConfigErrors`): the seven-kind error
  taxonomy with its `description` and `Display` texts.

Supporting modules: `Wrappers` (Option, Result with Rust's `?` as Dafny's
`:-`), `Paths` (a path is an absolute flag plus its components; `Parent`
drops the last component and is `None` for "/" and "", as
`std::path::Path::parent` does) and `TomlValues` (the shape of a parsed TOML
value; a table is its entries in iteration order).

What the process, the file system and the TOML parser provide is passed in:
the `POEM_ENV` lookup (present, absent or not Unicode), whether the build has
debug assertions, the processor count, the working directory (`None` when it
cannot be read), a file-existence predicate, the parser's result and the
type-name function of a TOML value.

Behaviour of the code that is easy to get wrong, and that the model keeps:

- `from_str` accepts ten strings (four for development, three each for
  staging and production).
- A bare relative file name has the empty path as its parent, so `from`
  accepts it and roots it in the empty relative path; only "/" and "" are
  refused.
- The texts about a bad environment value name `ROCKET_ENV` although the
  variable that is read is `POEM_ENV`; the strings are modelled as written.
- `parse` validates only that every top-level entry is a table; section
  contents are never applied, so a successful parse returns the defaults
  rooted at the file.

## Model

| member | source | states |
|---|---|---|
| `Paths.Parent` | src/config/basic_config.rs:79 | the parent is absent exactly for a path with no components; otherwise it is the path minus its last component, with the same absolute flag |
| `Paths.ParentOfAncestor` | src/config/env_config.rs:41-44 | stepping to the parent of the k-th ancestor gives the (k+1)-th, and only the topmost ancestor (the root itself) has no parent |
| `ConfigErrors.Kind` | src/config/error.rs:6-21 | a numbering of the seven constructors, each below 7 |
| `ConfigErrors.Description` | src/config/error.rs:24-35 | one fixed text per kind; its contract is carried by the two lemmas below (the text identifies the kind, and the payload never shows) |
| `ConfigErrors.DescriptionIdentifiesKind` | src/config/error.rs:24-35 | errors with the same description are of the same kind, so the seven descriptions are pairwise distinct |
| `ConfigErrors.DescriptionIgnoresPayload` | src/config/error.rs:24-35 | errors of the same kind have the same description, whatever their payload |
| `ConfigErrors.BadFilePathMessage` | src/config/error.rs:44 | an invalid file path displays as its rendered path followed by " is not a valid config path"; the reason does not show |
| `ConfigErrors.BadEntryMessage` | src/config/error.rs:46-48 | an invalid entry displays as its rendered name followed by " is not a valid `[environment]` entry"; the path does not show |
| `ConfigErrors.BadTypeMessage` | src/config/error.rs:49-51 | a type mismatch displays as "type mismatch for '<name>'. expected <expected>, found <actual>" |
| `ConfigErrors.ParseErrorMessageIgnoresPayload` | src/config/error.rs:33-52 | every parse error displays the same fixed text, equal to its description, whatever its source, path, message and position |
| `ConfigErrors.Display` | src/config/error.rs:38-55 | `NotFound` and every parse error display their description; `IoError` displays a text different from its description; the other kinds are described by `BadFilePathMessage`, `BadEnvMentionsRocketEnv`, `BadEntryMessage` and `BadTypeMessage` |
| `ConfigErrors.BadEnvMentionsRocketEnv` | src/config/error.rs:30-45 | both the description and the message of a bad environment value name `ROCKET_ENV` |
| `Environments.FromStr` | src/environment.rs:59-68 | parsing succeeds exactly for the keys of the alias table and yields the variant the table gives |
| `Environments.Display` | src/environment.rs:71-78 | the displayed name of each variant is one of its own aliases, and the longest of them ("development", "staging", "production") |
| `Environments.Active` | src/environment.rs:20-30 | fails exactly when the variable is present and its value does not parse, with `BadEnv` carrying the original string; a present value that parses gives that environment; an absent or non-Unicode variable gives development in a debug build and production otherwise |
| `Environments.ActiveResolution` | src/environment.rs:20-30 | a present value resolves through the alias table or fails with `BadEnv` carrying the original string; an absent or non-Unicode variable gives development in a debug build and production otherwise |
| `Environments.AcceptedStrings` | src/environment.rs:59-68 | a string is accepted iff it is one of the ten aliases |
| `Environments.DisplayRoundTrip` | src/environment.rs:59-78 | parsing the displayed name of a variant gives the variant back |
| `Environments.FromStrExamples` | src/environment.rs:50-68 | "p" and "prod" parse to production; "x", "Dev" and "PRODUCTION" are refused (parsing is case-sensitive) |
| `Environments.IsDev` | src/environment.rs:32-35 | the development test; its contract is `ExactlyOneTest` |
| `Environments.IsStage` | src/environment.rs:37-40 | the staging test; its contract is `ExactlyOneTest` |
| `Environments.IsProd` | src/environment.rs:42-45 | the production test; its contract is `ExactlyOneTest` |
| `Environments.ExactlyOneTest` | src/environment.rs:32-45 | every variant passes exactly one of the three tests |
| `Environments.AllListsEachOnce` | src/environment.rs:18 | the constant `ALL` has three elements and holds each variant exactly once |
| `BasicConfigs.BasicConfig.SetRoot` | src/config/basic_config.rs:67-69 | the root path becomes the given path and no other field changes |
| `BasicConfigs.DefaultWorkers` | src/config/basic_config.rs:35 | the worker count is twice the processor count modulo 2^16, hence exactly twice it below 32768 processors |
| `BasicConfigs.Default` | src/config/basic_config.rs:34-65 | defaults exist for every environment, carry that environment, port 8000, the computed worker count, no database and no paths, and bind "localhost" for development and "0.0.0.0" otherwise |
| `BasicConfigs.New` | src/config/basic_config.rs:30-32 | the public constructor gives the defaults |
| `BasicConfigs.From` | src/config/basic_config.rs:71-88 | fails with `BadFilePath(path, "Configuration files must be rooted in a directory")` iff the path has no parent; on success the root is the parent, the file path is the path and every other field is the default |
| `BasicConfigs.BasicConfig.Eq` | src/config/basic_config.rs:91-95 | the hand-written equality; its contract is `EqIsProjectionEquality` |
| `BasicConfigs.EqIsProjectionEquality` | src/config/basic_config.rs:91-95 | the narrow equality holds iff address, port and workers agree, and is reflexive, symmetric and transitive |
| `BasicConfigs.DefaultsCompared` | src/config/basic_config.rs:91-95 | development defaults differ from staging and production defaults, while staging and production compare equal |
| `BasicConfigs.WorkersSameAcrossEnvironments` | src/config/basic_config.rs:35-63 | the default worker count is the same in every environment |
| `BasicConfigs.FromEqualsDefault` | src/config/basic_config.rs:75-95 | a record built from a path with a parent compares equal to the plain defaults |
| `BasicConfigs.FromEdgeCases` | src/config/basic_config.rs:79-84 | "/" and "" are refused; a bare file name is accepted and rooted in the empty relative path |
| `EnvConfigs.EnvConfig.GitMut` | src/config/env_config.rs:50-55 | the lookup reaches its panic (`None`) exactly when the environment has no entry, and otherwise yields that entry |
| `EnvConfigs.Manifest` | src/config/env_config.rs:14-36 | the searched file is the directory joined with `config/env_config.toml` |
| `EnvConfigs.Find` | src/config/env_config.rs:28-48 | returns the file of the nearest ancestor of the working directory (itself and the root included) that has one; fails with `NotFound` iff none has, or when the working directory is unknown |
| `EnvConfigs.DefaultSetOutcome` | src/config/env_config.rs:57-75 | a path without a parent fails with `BadFilePath` even when the environment variable is also invalid; otherwise the construction fails exactly when the environment does not resolve, with that error, and succeeds with the active environment and exactly the three environments as keys |
| `EnvConfigs.DefaultSetEntries` | src/config/env_config.rs:58-67 | after a successful construction each environment's entry is `from(env, path)` when a path is given and `default(env)` otherwise |
| `EnvConfigs.ActiveDefaultFrom` | src/config/env_config.rs:57-75 | the three insertions with early returns compute exactly the declarative default set `DefaultSet`, whose outcome and entries the two lemmas above describe |
| `EnvConfigs.ActiveBasicConfig` | src/config/env_config.rs:77-79 | succeeds iff the environment resolves, with the defaults of that environment; otherwise returns the resolution error |
| `EnvConfigs.FirstNonTable` | src/config/env_config.rs:103-116 | finds the first top-level entry whose value is not a table, or reports that all are tables |
| `EnvConfigs.Parse` | src/config/env_config.rs:81-119 | a syntax failure gives `ParseError` with marker (2,2) and a non-table document gives one with marker (1,1); then errors of the default set come first; then the first non-table entry gives `BadType(entry, "a table", type, path)`; otherwise the unmodified default set rooted at the file |
| `EnvConfigs.GitMutNeverPanics` | src/config/env_config.rs:50-67 | after a successful construction the map has exactly three entries, every environment is present and the lookup never panics |
| `EnvConfigs.EnvConfig.Eq` | src/config/env_config.rs:17-24 | the derived equality (same active environment, same keys, entries equal under the hand-written equality); its contract is `FileDefaultsEqualPlainDefaults` |
| `EnvConfigs.FileDefaultsEqualPlainDefaults` | src/config/env_config.rs:17-24 | under the derived equality, a default set rooted at a file equals the plain default set |

## Left out

- `read_config` (src/config/env_config.rs:122-134): opening and reading the file is I/O; both of its failures become `IoError`, and the rest is `Find` followed by `Parse`.
- The TOML parser, `Value::type_str` and `Value::as_table`: the parse result and the type-name function are inputs, and "is a table" is the `Table` constructor.
- `env::var`, `env::current_dir`, `fs::metadata` and `num_cpus::get`: replaced by the `VarLookup` value, the optional working directory, the file-existence predicate and the processor count; `cfg(debug_assertions)` is the `debugBuild` flag.
- The `{:?}` rendering of paths and strings in `Display`: `ConfigErrors.Display` takes it as two functions.
- Applying section contents to the records: the source discards them, so nothing is merged.
- HashMap hashing: the per-environment map is a Dafny `map`, which has no iteration order.
- The order in which `parse` visits the top-level entries is the order of the parsed TOML table; the model takes it as the table's entry sequence and does not model the parser's ordering.
- Path normalisation (".", "..", Windows prefixes) and the rule that joining an absolute path replaces the base.
- `BasicConfigs.BasicConfig.SetRoot`: modelled as a value update that returns the new record rather than a change in place; a Rust struct owned by value has no aliases, so nothing observable is lost.
- `EnvConfigs.EnvConfig.GitMut`: returns the entry rather than a mutable reference into the map; writing through that reference is not modelled (nothing in the library does it).
- `BasicConfigs.DefaultWorkers`: the debug-build panic when `2 * num_cpus` overflows `usize` is not modelled; the release-build wrap-around is, since 2^16 divides the width of `usize`.
- `BadEntry` is declared and rendered but never produced by the code.
- `src/lib.rs` holds only module declarations and re-exports.
