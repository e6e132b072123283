# stm — configuration model and manager dispatch, in Dafny

stm (System Tool Manager) reads a configuration that lists package managers and tools. Each manager has a name and two command templates, one to install and one to update. Each tool names its package, its owning manager, and a binary name or file path that shows whether it is installed. stm then installs or updates the tools of the managers the user names, and can list the configured managers.

This project models two parts of stm:

- `stm.dfy`, module `Stm` (from `src/stm.rs`): the value types `Manager`, `ManagerList`, `Tool`, `ToolList` and `Config`, their constructors, and three queries:
  - `FindManager` returns the first manager with a given name.
  - `Names` returns the manager names in declaration order.
  - `FilterByManager` returns a manager's tools in tool order.
- `dispatch.dfy`, module `Dispatch` (from `src/main.rs`):
  - `HasValidManager` validates manager names.
  - `InstallList` and `UpdateList` compute the package lists the two commands build.
  - `RunManagers` is the loop that runs the named managers one after another and stops at the first failure. `InstallCommand` and `UpdateCommand` are built on it.
  - `ListCommand` outputs the manager names.
- `seqs.dfy`, module `Seqs`: the iterator adaptors the Rust code uses (`filter` and `map`, each followed by `collect`), as order-preserving sequence functions, plus the subsequence relation `IsSubseq`. The `find` that `find_manager` uses is `Stm.FirstNamed`.
- `wrappers.dfy`, module `Wrappers`: `Option` and `Result`.

Three operations the source calls are not defined in `src/stm.rs` or `src/main.rs`: `Tool::is_installed`, `Manager::install_packages` and `Manager::update_packages`. They enter the model as parameters:

- `installed: Tool -> bool` answers the installed-state check.
- `succeeds: (nat, Run) -> bool` says whether the execution made at a given turn of the invocation (0 for the first command run) returned `Ok`. Because the turn is part of the question, a manager named twice (`stm update arch arch`) can succeed the first time and fail the second.

A `Trace` records the runs executed, in order, and how the invocation ended:

- `Completed`;
- `UnknownManager(name)`, where the `unwrap` of a failed lookup panics;
- `ExecutionFailed(run)`, where `expect` panics.

The configuration is a value passed to every operation, standing in for the memoised `load_config`.

The Rust code applies `find_manager(..).unwrap()` lazily inside `map(..).for_each(..)`. So the k-th name is looked up only after managers 0..k-1 have run, and `Dispatched` looks names up in that same order. The clap validator (`has_valid_manager`) checks every value of the `managers` argument before either command runs. `RunSubcommand` models that order: a missing argument or a rejected name refuses the whole command line, and only a command line that passes reaches `Dispatched`. `ValidatedNamesAreFound` proves that, for validated names, the `UnknownManager` ending cannot occur.

## Model

| member | source | states |
|---|---|---|
| `Stm.Manager.New` | src/stm.rs:57-63 | the new manager's name, install command and update command are the three arguments |
| `Stm.ManagerList.Names` | src/stm.rs:51-53 | one name per manager, same length as the list, element i is the name of manager i (declaration order) |
| `Stm.Tool.New` | src/stm.rs:84-91 | package and manager are copied; binary and path are always `Some`: the given value, or `Some("")` when it was absent (never `None`) |
| `Stm.Tool.NewBinary` | src/stm.rs:93-95 | binary is `Some(b)`, path is `Some("")`, package and manager copied |
| `Stm.Tool.NewPath` | src/stm.rs:97-99 | binary is `Some("")`, path is `Some(q)`, package and manager copied |
| `Stm.ToolList.FilterByManager` | src/stm.rs:78-80 | an order-preserving subsequence of the tools, no longer than them, holding only tools of that manager and every such tool as often as the list does; empty exactly when no tool names that manager |
| `Stm.Config.FindManager` | src/stm.rs:35-37 | a found manager is in the list and carries exactly the requested name; `None` exactly when the name is not among `Names()` |
| `Stm.FirstNamed` | src/stm.rs:35-37 | the scan from the front returns a manager of the sequence carrying the name, and `None` exactly when no manager carries it |
| `Stm.FindManagerFirst` | src/stm.rs:35-37 | when several managers share the name, the one at the first such index is returned |
| `Stm.FilterByManagerIdempotent` | src/stm.rs:78-80 | filtering the result again by the same manager returns it unchanged |
| `Stm.FilterByManagerExact` | src/stm.rs:78-80 | any order-preserving subsequence with only that manager's tools, keeping each of them as often as the list, equals `FilterByManager`: the contract determines the result |
| `Stm.TestConfigNames` | src/stm.rs:155-163 | on the unit-test configuration the names are `["arch", "cargo", "misc"]` |
| `Stm.TestConfigFindManager` | src/stm.rs:165-179 | on that configuration "arch" finds the first manager, "misc" the last, "rust" nothing |
| `Stm.TestConfigToolsOfArch` | src/stm.rs:181-188 | on that configuration the tools of "arch" are the first two tools, in order |
| `Stm.TestConfigToolsOfOthers` | src/stm.rs:190-194 | on that configuration "misc" (configured, owns no tool) and "rust" (not configured) have no tools |
| `Dispatch.HasValidManager` | src/main.rs:12-21 | `Ok` exactly when some configured manager has that name, otherwise `Err("invalid manager " + v)` |
| `Dispatch.ValidManagerIsFound` | src/main.rs:84 | a name passes validation exactly when `FindManager` finds it, and the manager found has that name, so the `unwrap` cannot fail on validated names |
| `Dispatch.UpdateList` | src/main.rs:105-110 | the update list is an order-preserving subsequence of the tools' packages, no longer than the tool list |
| `Dispatch.UpdateListComplete` | src/main.rs:105-110 | the update list holds the package of every tool of the manager |
| `Dispatch.UpdateListSound` | src/main.rs:105-110 | every package in the update list is the package of some tool of the manager |
| `Dispatch.InstallList` | src/main.rs:86-92 | the install list is an order-preserving subsequence of the update list for the same manager, and no longer |
| `Dispatch.InstallListComplete` | src/main.rs:86-92 | the install list holds the package of every tool of the manager that is not installed |
| `Dispatch.InstallListSound` | src/main.rs:86-92 | every package in the install list is the package of some tool of the manager that is not installed |
| `Dispatch.InstallListSinglePass` | src/main.rs:86-92 | the two-stage filter equals one filter by "belongs to the manager and not installed", projected to packages in tool order |
| `Dispatch.InstallListNothingInstalled` | src/main.rs:86-92 | when no tool is installed, install hands over exactly the update list |
| `Dispatch.InstallListAllInstalled` | src/main.rs:86-92 | when every tool is installed, the install list is empty |
| `Dispatch.DispatchedInOrder` | src/main.rs:101-113 | at most one run per argument; run i is the manager found for argument i, with the command and that manager's package list |
| `Dispatch.DispatchedEarlierRunsSucceeded` | src/main.rs:82-95 | every run but the last one succeeded at its own turn, so the invocation stops at the first failure |
| `Dispatch.DispatchedCompleted` | src/main.rs:82-95 | a completed invocation made one run per argument, and the last one succeeded at its turn |
| `Dispatch.DispatchedFailed` | src/main.rs:93-94 | a failed invocation ends with the run that failed: it is the last run, and it did not succeed at its turn |
| `Dispatch.DispatchedUnknown` | src/main.rs:84 | an unknown name ends the invocation at its own turn, with nothing run for it or after it, and no configured manager carries it |
| `Dispatch.DispatchedOutcome` | src/main.rs:82-95 | `Completed` means one run per argument, the last one successful; `ExecutionFailed` names the last run, which did not succeed; an unknown name ends the invocation at its own turn, with nothing run for it or after it, and that name is not configured |
| `Dispatch.ValidatedNamesAreFound` | src/main.rs:34-40 | if every name passed `has_valid_manager`, the invocation never ends at an unknown manager |
| `Dispatch.AllSucceedCompletes` | src/main.rs:82-95 | when names are validated and every command succeeds, the invocation completes with one run per name |
| `Dispatch.UpdateIgnoresInstalled` | src/main.rs:105-111 | the update invocation is the same whatever the installed-state check says |
| `Dispatch.DispatchedSameLists` | src/main.rs:82-95 | the trace depends on the package-list function only through its values |
| `Dispatch.DispatchedStep` | src/main.rs:82-95 | one turn of the loop: an unknown name or a failed run ends the trace there, a successful run appends itself and the dispatch goes on with the next argument |
| `Dispatch.RunManagers` | src/main.rs:82-95 | given the package list of each manager, the loop's trace equals `Dispatched`, the argument-order, stop-at-first-failure specification |
| `Dispatch.InstallCommand` | src/main.rs:79-96 | `install_command` yields the `Dispatched` trace with the install package lists |
| `Dispatch.UpdateCommand` | src/main.rs:98-114 | `update_command` yields the `Dispatched` trace with the update package lists |
| `Dispatch.ValidateAll` | src/main.rs:39 | the values pass exactly when each one passes `has_valid_manager`; otherwise the error is the message of a rejected value with every earlier value accepted (the first rejected one) |
| `Dispatch.RunSubcommand` | src/main.rs:32-71 | no values means the required-argument error; the command line reaches the dispatch exactly when there are values and all pass validation, and then the trace is `Dispatched` from turn 0 and never ends at an unknown name; a rejected value's message is reported |
| `Dispatch.ListCommand` | src/main.rs:116-124 | one output line per configured manager, line i being the name of manager i |
| `Dispatch.TestConfigUpdateArch` | src/main.rs:105-110 | on the unit-test configuration update hands "arch" `["alacritty", "ttf-fira-code"]` |
| `Dispatch.TestConfigUpdateArchTwice` | src/main.rs:101-113 | on that configuration `update arch arch` makes the same run twice, and when only the first turn succeeds it ends failing on the second |
| `Dispatch.TestConfigRejectsRust` | src/main.rs:12-21 | on that configuration "rust" is rejected with "invalid manager rust"; `install arch rust` is refused as a whole with that message, so not even "arch" runs; `["rust"]` handed to the dispatch directly ends at its lookup with no run |

## Left out

- `Config::from_file` and `Config::default` (src/stm.rs:21-33): these open a file and parse JSON with serde, a foreign library. The configuration enters the model as a value, so the JSON round trip is not modelled.
- `app_dir` and `Config::path` (src/stm.rs:6-19): these look up the OS configuration directory.
- `#[cached] load_config` (src/main.rs:7-10): this is a process-wide memo. The configuration is passed in explicitly.
- `main` (src/main.rs:23-77): this covers clap argument parsing, setting `STM_CONFIG_PATH` and creating the application directory. The validator it installs is modelled as `HasValidManager`, and `ValidatedNamesAreFound` states what it guarantees.
- `Tool::is_installed`, `Manager::install_packages` and `Manager::update_packages` are not part of this model, because they are not defined in the two source files. That leaves out the binary-then-path installed-state policy, the `{{packages}}` template substitution, and process spawning. They appear only as the oracles `installed` and `succeeds`.
- The `installed` oracle is fixed for a whole invocation. In the program, an earlier manager's install could change what a later tool check sees. This is not modelled.
- `RunSubcommand`: clap's own wording and exit status for a missing argument or a rejected value are not modelled; `MissingManagers` and `InvalidValue(message)` stand for them.
- `println!` output: `ListCommand` returns the lines rather than writing them to standard output.
- Rust returns `Vec<&Tool>`, `Vec<&String>` and `Option<&Manager>`, which are references into the configuration. The model returns values, and equality is structural.
- The configuration does not have to keep manager names unique, and nothing checks that every tool's manager is configured; the source does not check either. `FindManagerFirst` states what happens with duplicate names.
- `Dispatch.UpdateCommand` takes the `installed` oracle only so that it has the same shape as `InstallCommand`. `UpdateIgnoresInstalled` proves that update does not depend on it.
