# wrestler: planner and executor, modelled in Dafny

wrestler runs parameter sweeps of a program. A *problem* declares:

- a set of parameters, each with a list of values;
- a run-name template, such as `n{n}_mode{mode}`;
- up to three phases: `build` (optional), `run`, and `analyze` (optional).

Each phase is a program, its arguments, an optional working directory and an optional environment. The program, the arguments and the directory are templates that use `{key}` tokens.

This project models the two modules that do the work.

- **Planner** (`src/planner.rs`) expands the sweep into one run plan per combination of values, as a cartesian product. For each combination it:
  - binds every parameter key to that combination's value, then binds `project_root` to the target's root;
  - resolves the run name;
  - places the run under `<root>/wrestler_outputs/problems/<problem>/runs/<target>/<name>`;
  - binds `run_dir` to that run root;
  - resolves the three phases against the map.

  The working directories default to the target's root for `build`, `<run root>/run` for `run`, and `<run root>/analysis` for `analyze`.
- **Executor** (`src/executor.rs`) carries out one plan on a target, either locally through `sh -c` and the filesystem, or remotely through `ssh <host>`. A dry run prints the plan and does nothing else. A real run:
  - creates the `logs`, `run` and `analysis` directories;
  - then, for each declared phase in turn, creates the phase's working directory, runs its shell string, and writes standard output and standard error to `<run root>/logs/<phase>.stdout` and `.stderr`;
  - only after both logs are written does it look at the exit status;
  - stops at the first error.

Files:

| file | module | contents |
|---|---|---|
| `config.dfy` | `Config` | the configuration records of `src/config.rs`: values, targets, phases, problems |
| `text.dfy` | `Text` | `{key}` tokens, Rust's replace-all on strings (`ReplaceAll`), `Split`/`Join` and their laws, decimal rendering of integers |
| `planner.dfy` | `Planner` | substitution maps, `replace_tokens`, `value_to_string`, the product, `build_concrete_phase`, `plan_problem` |
| `executor.dfy` | `Executor` | events, the world oracle, the `Host` on which effects happen, the executor's operations and the properties of a run |

The executor is modelled as follows:

- Each process spawn or filesystem call is an `Event` appended to `Host.trace`.
- A `World` oracle answers each event, given all earlier events. It either refuses the event (a spawn or I/O error, which `?` propagates) or completes it with an exit status and the captured output.
- Each method of the executor is proved against a specification function. That function gives the events the method performs and the outcome it returns (`EnsureDirectoryRun`, `CreateDirectoriesRun`, `PhaseRun`, `RunPhases`, `ExecuteRunSpec`). The lemmas about runs are stated on those functions.

## Model

| member | source | states |
|---|---|---|
| Planner.ReplaceTokens | src/planner.rs:22-29 | the loop applies one whole-string replace-all of `{k}` by `v` per map entry, in iteration order, each on the previous result (`SubstituteAll`) |
| Planner.SubstituteWithoutTokens | src/planner.rs:22-29 | a template in which no key of the map occurs as `{key}` comes back unchanged; so does any template under an empty map |
| Planner.SingleEntrySubstitution | src/planner.rs:22-29 | with one entry, the template is cut at the left-most non-overlapping occurrences of `{k}`; the pieces contain no `{k}`, the pieces joined with `{k}` give back the template, and the result is the pieces joined with `v` |
| Planner.SubstitutionIsOrderDependent | src/planner.rs:24-27 | replacement is sequential, so a value containing another key's token is expanded or not depending on entry order |
| Planner.ValueToString | src/planner.rs:30-37 | a string value is its text unchanged; an integer's text is canonical decimal (a `-` exactly when negative, no leading zero, `0` alone for zero) and parses back to the integer; a float is the text of `f64`'s `Display` it carries, any other value the text of the TOML library's `to_string` it carries |
| Planner.ProductLength | src/planner.rs:87 | the number of combinations is the product of the value lists' lengths |
| Planner.CountZeroIffEmptyList | src/planner.rs:87 | that product is zero exactly when some value list is empty |
| Planner.ProductAt | src/planner.rs:87 | each choice of one value per list appears in the product at its mixed-radix rank, so the first key varies slowest and the last key fastest |
| Planner.ProductMembers | src/planner.rs:87 | each combination has one value per parameter, taken from that parameter's list |
| Planner.CombinationSubsBinds | src/planner.rs:89-96 | the map binds each parameter key to the combination's value and `project_root` to the target's root (overriding a parameter of that name), and binds nothing else |
| Planner.BindCombination | src/planner.rs:89-96 | the zip loop followed by the `project_root` insert builds exactly `CombinationSubs` |
| Planner.NameMapLacksRunDir | src/planner.rs:89-107 | the plan's name is the run-name template resolved against the combination's map (`SubstituteAll(run_name, CombinationSubs(...))`), which is built before `run_dir` is inserted; unless a parameter is called `run_dir`, that map has no `run_dir` entry |
| Planner.PlanNaming | src/planner.rs:89-107 | the plan's name is the run-name template resolved against the combination's map; its run root is the fixed layout around that name; the map the phases see binds `run_dir` to the run root and `project_root` to the target's root |
| Planner.PlanPhases | src/planner.rs:39-123 | build and analyze are present exactly when declared; each phase is `build_concrete_phase` of its template against the map that binds `run_dir`, with the root, `<run root>/run` or `<run root>/analysis` as the default cwd |
| Planner.RunRootInjective | src/planner.rs:102-105 | two run roots of one problem and target are equal exactly when the run names are |
| Planner.PlanLayout | src/planner.rs:39-123 | within a plan: the name is the run-name template resolved against the combination's map without `run_dir`; the run root is the fixed layout around the name; the phase map binds `run_dir` to the run root and `project_root` to the root; build and analyze are present exactly when declared; each phase has its program and every argument substituted, one argument per template argument; the declared cwd is substituted, and otherwise defaults to the root, `<run root>/run` or `<run root>/analysis`; env is copied unsubstituted, empty when absent |
| Planner.PlanCombination | src/planner.rs:88-131 | the loop body builds `PlanFor` of its combination |
| Planner.PlanProblem | src/planner.rs:69-135 | the plans are `Plans`: one per combination, in product order |
| Planner.PlanCount | src/planner.rs:78-87 | with at least one parameter, the number of plans is the product of the value-list lengths, and it is zero exactly when some parameter has no values |
| Planner.PlanAt | src/planner.rs:78-131 | the plan at mixed-radix rank `digits` is the plan of the combination that takes value `digits[i]` of parameter `i`, rendered by `value_to_string` |
| Planner.PlanRootsFollowNames | src/planner.rs:99-105 | two plans of one sweep share a run root exactly when they share a run name |
| Planner.UntokenedNameCollides | src/planner.rs:99-105 | a run name mentioning no parameter and no `project_root` is the same for every plan, so all plans share one run root |
| Executor.ShellStringArgs | src/executor.rs:131-134 | the shell string is `cd <cwd> && <program> ` followed by the arguments joined with spaces; the trailing space remains when there are no arguments; when there are arguments and none contains a space, they split back out |
| Executor.EnsureDirectory | src/executor.rs:8-19 | one `ssh <host> mkdir -p <path>` or one local `create_dir_all`; only a refusal is an error, and the remote exit status is ignored |
| Executor.CreateDirectories | src/executor.rs:73-89 | remotely one `mkdir -p` of logs, run and analysis; locally three `create_dir_all` calls in that order, stopping at the first refusal |
| Executor.WriteRemoteLog | src/executor.rs:136-152 | one `ssh <host> cat > <path>` fed with the content; an error only when refused, and the exit status is ignored |
| Executor.ExecutePhase | src/executor.rs:91-129 | the host's trace grows by exactly the events of `PhaseRun` and the outcome is `PhaseRun`'s: ensure the cwd, run the shell string, write the stdout log then the stderr log, and only then fail with `PhaseFailed` on an unsuccessful status; any refusal stops it with `IoError` (the order, the status rule and the refusal rule are `PhaseEventOrder`, `PhaseStatusRule` and `PhaseRefusalStops`) |
| Executor.ExecuteOptionalPhase | src/executor.rs:39-47 | an absent phase does nothing and succeeds; a present one is `ExecutePhase` |
| Executor.ExecuteRun | src/executor.rs:21-50 | the host's trace grows by exactly the events of `ExecuteRunSpec` and the outcome is its: a dry run does nothing and succeeds; otherwise create the directories, then build, run and analyze as declared, stopping at the first error (a refusal stops it with `IoError` by `RunRefusalStops`) |
| Executor.PhaseRunFacts | src/executor.rs:91-129 | a phase runs at most its own command, and runs it whenever it succeeds or fails by exit status; a `PhaseFailed` names the phase; its events explain its failure; every event goes through `ssh` exactly when the target is remote |
| Executor.RunPhasesOrder | src/executor.rs:39-47 | the commands run are a prefix of the phases' commands in order, all of them on success; a phase failing by status is the last one whose command ran |
| Executor.ExecutionFollowsPlan | src/executor.rs:37-49 | a real run executes a prefix of the plan's commands in declared order, all of them on success; the directories run no command |
| Executor.PhaseEventOrder | src/executor.rs:97-122 | a phase's events are a prefix of: ensure the cwd, run the command, write the stdout log, write the stderr log; all of them when the phase succeeds or fails by exit status |
| Executor.PhaseStatusRule | src/executor.rs:97-126 | a phase succeeds only if its command exits successfully; an unsuccessful exit after the cwd exists always fails; when the cwd and both log writes are not refused, the phase succeeds exactly when the exit status is successful and fails with `PhaseFailed` exactly when it is not |
| Executor.PhaseRefusalStops | src/executor.rs:97-122 | a phase stops at the first refused call, whether making the cwd, running the command or writing either log: the refused event is the phase's last and the phase fails with `IoError` of that event (with `Explained`, `IoError` exactly when some call is refused) |
| Executor.PhaseOutcomeByStatus | src/executor.rs:97-126 | when nothing is refused, a phase runs its own command only, succeeds exactly when that command's status is successful, and fails with `PhaseFailed` naming the phase exactly when it is not |
| Executor.FailedPhaseStopsPhases | src/executor.rs:39-47 | when nothing is refused, the phases before phase `k` succeed and phase `k` exits unsuccessfully, each status being the answer to the command at its place in the run (after as many earlier commands as phases before it), the run of the phases fails with `PhaseFailed` naming phase `k`, and the commands run are exactly those up to and including phase `k`'s |
| Executor.BuildFailureRanOnlyBuild | src/executor.rs:39-43 | a run that fails with `PhaseFailed("build")` declared a build, and the build command is the only one it ran |
| Executor.BuildFailureSkipsLaterPhases | src/executor.rs:37-43 | when nothing is refused and the build command, answered as the run's first command, exits unsuccessfully, the run fails with `PhaseFailed("build")` and the build command is the only one run: run and analyze never start |
| Executor.RunFailureSkipsAnalyze | src/executor.rs:37-47 | when nothing is refused, the build (if declared) succeeds as the run's first command and the run command, answered after it, exits unsuccessfully, the run fails with `PhaseFailed("run")` after running the build and run commands only: analyze never starts |
| Executor.RepeatedCommandRunFails | src/executor.rs:39-47 | a build and a run with the same command text still run in turn: when the run's first command succeeds and the next fails, the run fails with `PhaseFailed("run")` after running that command twice |
| Executor.RunRefusalStops | src/executor.rs:37-47 | a real run stops at the first refused call, whether one of the directory creations (local or over `ssh`) or a call of a phase: the refused event is the run's last and the run fails with `IoError` of that event |
| Executor.PrintPlanShowsPlannedCommands | src/executor.rs:52-71 | the `> ` lines of the dry-run printout are exactly the plan's commands in declared order |
| Executor.DryRunShowsExecutedCommands | src/executor.rs:32-35 | a dry run performs no event and returns Ok; a real run executes a prefix of exactly the printed commands, all of them on success |
| Executor.ExecuteRunFacts | src/executor.rs:21-50 | dry or not, every event goes through `ssh` exactly when the target is remote, and a failure is explained by the events: an `IoError` is the last event, refused by the world; a `PhaseFailed` ends with its command, answered unsuccessfully, then the two log writes of that output |
| Executor.ProvisioningFirst | src/executor.rs:73-89 | a real run begins with the directory events, or stops among them with an error; locally these are `logs`, `run`, `analysis` in order; remotely one `mkdir -p` of the three joined by spaces; log paths lie inside the provisioned `logs` |
| Executor.StatusesOfSideCallsIgnored | src/executor.rs:8-19 | when nothing is refused and every command exits successfully, the run succeeds whatever `mkdir` and the log writes exit with |
| Executor.DefaultCwdsProvisioned | src/planner.rs:109-123 | the default cwds of run and analyze are the `run` and `analysis` directories that `create_directories` makes |
| Text.ReplaceAllIsSplitJoin | src/planner.rs:26 | Rust's replace-all of a non-empty pattern is the string split at left-most non-overlapping occurrences, joined with the replacement |
| Text.DecimalTextRoundTrip | src/planner.rs:33 | an integer's decimal text, with a `-` sign when negative, parses back to the integer |
| Text.DecimalTextCanonical | src/planner.rs:33 | an integer's decimal text is canonical: it starts with `-` exactly when the integer is negative, has no leading zero, and is `0` only for zero |

## Left out

- The substitution map's iteration order. The source uses a `HashMap`, whose order is unspecified and can change from run to run. The model keeps entries in insertion order: a new key goes last, and overwriting a key keeps its place.
- Substitution order independence is not claimed, because the code does not have it. `replace_tokens` substitutes sequentially, so a value holding another key's token may be re-expanded. `Planner.SubstitutionIsOrderDependent` exhibits this.
- Planner.ValueToString: a float carries the text Rust's `Display` for `f64` gives it (`1.0` is shown as `1`), and other TOML values (booleans, arrays, tables, datetimes) carry the text the `toml` crate's `to_string` gives them. Neither formatting is part of this model: the value carries its text.
- Planner.PlanCount and Planner.PlanAt require at least one parameter. For zero parameters, `multi_cartesian_product` yields either no combination or one, depending on the `itertools` version. `Product` returns the single empty combination, and no lemma relies on that case.
- Integer values are unbounded. The source's `i64` bound comes from the TOML parser, which is not part of this model.
- Real processes and the filesystem are replaced by the `World` oracle. It only decides whether a call was refused, plus the exit status and captured output. Contents of files and directories on disk are not modelled.
- Console output is not modelled: the run banner in `execute_run`, the `--- Executing phase` line and the echoed command in `execute_phase`. The dry-run printout of `print_plan` and `print_phase` is modelled, as the lines `PrintPlan` returns.
- A phase's `env` is carried into the plan but not passed to processes, because the executor never reads it.
- Executor.ExecutePhase models each failure of `output()`, `spawn()`, `write_all` and `wait()` as a refusal of the single event that stands for the call. A `write_remote_log` whose `ssh` starts but whose feeding fails is therefore not told apart from one that never started.
- Concurrency: the source runs everything sequentially, and so does the model.
- `src/main.rs` is not part of this model. Its `run` command looks up one problem and one target, panicking through `expect` when either is missing, plans that problem on that target, and executes the plans in order, stopping at the first plan whose `execute_run` fails. Its `logs` command (`handle_logs`) lists runs or shows a log.
- `src/cli.rs` and `Config::load` are not part of this model. The configuration structs of `src/config.rs` appear only as datatypes.
