# newman-testrunner step sequencer, modelled in Dafny

The tool runs a fixed pipeline of Postman-style API test collections
through the newman collection runner. Each run is given four inputs: a
collection file, an iteration data file, an environment file, and a school
name injected as a runtime variable. The repository's own logic has three
parts, and this model covers all of them for both command variants:

- **Path resolution** turns flag values into file paths. The environment
  directory is `--envPath`, or `--collectionPath` when that flag is absent.
  A suffix rule appends `.postman_collection.json` or
  `.postman_environment.json` to a name unless the name already ends with it
  (`paths.dfy`, `command_flags.dfy`).
- **Step plans** pair each of six collections with its data file
  (`steps.dfy`). The `setup-all` plan is setup-school, setup-ay-grades,
  create-timetable, add-teachers, add-students. The `delete` plan is
  delete-school. The default plan is the two concatenated. The `runner`
  command resolves its paths once into a record held by the command object
  (`runner.dfy`). It then starts the default plan, or each plan named by
  `--tests`, in list order.
- **The sequential executor** `RunTests` (`executor.dfy`) makes one engine run
  per payload. It advances only while the completion callback reports neither
  a hard error nor a summary error. It returns -1 for an empty list, 1 at the
  first failure and 0 after the last payload.

The older `hello runner` command (`hello.dfy`) is a pure function. It gives
the inputs of its five runs in the order it starts them. It passes the school
name under the key `name` where `runner` uses `school_name`.

The engine is outside the model (`engine.dfy`). A run is the options object
it is handed, and its completion is an `Outcome`: an optional hard error and
an optional summary error. `RunTests.Start` takes the outcome of each run as
a sequence.

Behaviour of the code worth noting:

- A summary-level (assertion) error halts the chain exactly like a hard error
  (src/commands/runner/index.ts:215-222). It does not continue to the next step.
- `#runTestOptions` throws an unknown name only when its turn comes, after
  the plans named before it were started (src/commands/runner/index.ts:147-149).
  From the command line this cannot happen: `--tests` accepts only `setup-all`
  and `delete` (src/commands/runner/index.ts:16), so flag parsing rejects any
  other name before a plan starts.
- `--tests setup-all delete` is not the default plan run under another name.
  Each name starts its own executor and does not wait for it
  (src/commands/runner/index.ts:132-152). So delete-school starts right after
  the setup executor has started, and it runs even when a setup step fails.
  The default chain (src/commands/runner/index.ts:25-28) reaches delete-school
  only after all five setup runs succeed.

## Model

| member | source | states |
|---|---|---|
| `Paths.WithSuffix` | src/commands/runner/index.ts:105 | the result always ends with the suffix; it equals the input exactly when the input already ends with the suffix, and is otherwise the input followed by the suffix |
| `Paths.WithSuffixIdempotent` | src/commands/runner/index.ts:191-192 | applying the suffix rule twice gives the same result as applying it once |
| `Paths.JoinShape` | src/commands/runner/index.ts:108 | a joined path is the directory, a separator and the name, so it ends with the name |
| `Paths.JoinKeepsSuffix` | src/commands/runner/index.ts:192 | a directory joined with a name that already has the suffix still ends with it, so the second application of the rule changes nothing |
| `Paths.JoinInjective` | src/commands/runner/index.ts:118-123 | under one directory, different names give different paths |
| `Paths.EndsWithTransitive` | src/commands/runner/index.ts:105 | a string ending in t also ends in every suffix of t |
| `CommandFlags.EnvDir` | src/commands/runner/index.ts:104 | the environment directory is `--envPath` when given and `--collectionPath` otherwise |
| `CommandFlags.EnvironmentPath` | src/commands/runner/index.ts:104-108 | the environment path starts with the environment directory and a separator, ends with the environment suffix, and is a fixed point of the suffix rule |
| `CommandFlags.EnvironmentPathSpelledOut` | src/commands/hello/runner.ts:22-25 | the environment path is directory + "/" + `--env`, followed by the suffix unless `--env` already ends with it |
| `Steps.CollectionName` | src/commands/runner/index.ts:118-123 | each collection file name is a single path segment that does not already carry the collection suffix |
| `Steps.DataFileName` | src/commands/runner/index.ts:112-115 | each data file name is a single path segment ending in `.json` |
| `Steps.DataFor` | src/commands/runner/index.ts:54-76 | setup-school, setup-ay-grades and delete-school use school data; create-timetable uses timetables; add-teachers uses teachers; add-students, and only it, uses students |
| `Steps.PlanNamed` | src/commands/runner/index.ts:131-150 | exactly `setup-all` and `delete` name a plan: the five setup steps and the delete step respectively |
| `Steps.FirstUnknown` | src/commands/runner/index.ts:126-153 | the position of the first unrecognised `--tests` name; every earlier name is recognised |
| `Steps.CollectionNamesDistinct` | src/commands/runner/index.ts:118-123 | different collections have different file names |
| `Steps.DataFileNamesDistinct` | src/commands/runner/index.ts:112-115 | different data files have different file names |
| `Steps.ResolvedPayloadsDiffer` | src/commands/runner/index.ts:54-76 | different steps run different collection paths; steps paired with different data files read different data paths |
| `Steps.DefaultPlanShape` | src/commands/runner/index.ts:78-99 | the default plan is exactly six distinct steps, setup-all's five in order then delete-school |
| `Steps.ExplicitSelectionIsDefault` | src/commands/runner/index.ts:94-99 | naming `setup-all` then `delete` selects exactly the default plan |
| `Steps.UnknownFirstNameSelectsNothing` | src/commands/runner/index.ts:147-149 | an unrecognised first name leaves nothing to start |
| `Steps.CollectionPathGetsSuffix` | src/commands/runner/index.ts:191 | no collection name carries the collection suffix, so a collection path always has it appended |
| `Engine.Outcome.Reported` | src/commands/runner/index.ts:214-223 | a run's logged error is present exactly when the run failed; a hard error wins over the summary's error |
| `Engine.RunOptions` | src/commands/runner/index.ts:194-200 | the data path, the runtime-variable key and value, and the `cli` reporter are passed through unchanged |
| `Engine.RunOptionsPaths` | src/commands/runner/index.ts:190-192 | the engine gets collection and environment paths that carry their suffixes, extend the paths passed in, and equal them exactly when those already carried the suffix |
| `Executor.RunTestsCall` | src/commands/runner/index.ts:190-204 | a run gets the payload's data path and the school name under the key `school_name` |
| `Executor.RunTestsCallPaths` | src/commands/runner/index.ts:191-199 | a run gets the payload's collection and environment paths after their suffix rules |
| `Executor.FirstFailure` | src/commands/runner/index.ts:206-226 | the first index whose callback reports an error, or the length when none does |
| `Executor.Chain` | src/commands/runner/index.ts:206-227 | the chain driven by the completion callbacks ends with 0 or 1 |
| `Executor.RunCount` | src/commands/runner/index.ts:206-226 | the chain makes at least one run when payloads remain, and runs up to and including the first failing one, or all of them when none fails |
| `Executor.ChainClosedForm` | src/commands/runner/index.ts:206-227 | the recursive chain stops with 1 and the failure's error right after the first failed run, or runs every payload in order and ends with 0 |
| `Executor.RunTests.constructor` | src/commands/runner/index.ts:176-178 | the executor holds the given payloads |
| `Executor.RunTests.Start` | src/commands/runner/index.ts:181-227 | an empty list gives -1 and no run. Otherwise payloads are run in order up to and including the first one whose callback reports either kind of error, which gives 1 and that error; if no run fails the result is 0 |
| `Executor.SummaryErrorHaltsLikeHardError` | src/commands/runner/index.ts:215-223 | only whether a run failed decides how far the chain gets: a summary error stops it where a hard error would |
| `Executor.SecondStepFailureStops` | src/commands/runner/index.ts:214-225 | when step 2 of 6 fails by either kind of error, the chain ends with 1 after two runs and step 3 is never run |
| `Executor.AllCleanRunsEverything` | src/commands/runner/index.ts:207-210 | when no run fails, every payload is run once, in order, and the chain ends with 0 |
| `RunnerCommand.Props.Content` | src/commands/runner/index.ts:54-76 | a step's payload pairs its collection path with its data file's path (as `DataFor` fixes), plus the shared environment path and school name |
| `RunnerCommand.Props.AllSetupSteps` | src/commands/runner/index.ts:78-86 | the setup payloads are those of the `setup-all` plan, in plan order |
| `RunnerCommand.Props.DeleteSteps` | src/commands/runner/index.ts:88-92 | the delete payloads are those of the `delete` plan |
| `RunnerCommand.Props.AllSteps` | src/commands/runner/index.ts:94-99 | the default payloads are those of the default plan, in plan order |
| `RunnerCommand.Props.PayloadsNamed` | src/commands/runner/index.ts:131-150 | a `--tests` name selects payloads exactly when it names a plan: the setup payloads for `setup-all`, the delete payloads for `delete` |
| `RunnerCommand.UnresolvedMatchesNoFlags` | src/commands/runner/index.ts:37-52 | the record held before resolution matches no flags, since a resolved environment path is never empty |
| `RunnerCommand.Runner.constructor` | src/commands/runner/index.ts:7-52 | the command object starts with its paths unset |
| `RunnerCommand.Runner.InitProps` | src/commands/runner/index.ts:102-124 | after it, every resolved path is the one the flags determine |
| `RunnerCommand.Runner.RunTestOptions` | src/commands/runner/index.ts:126-153 | names are handled in order, and one plan is started per recognised name up to the first unknown name. That name is thrown; if there is none the result is 0 |
| `RunnerCommand.Runner.Run` | src/commands/runner/index.ts:19-34 | paths are resolved first. Without `--tests` exactly the default payloads are started and the result is 0; otherwise the names are handled as `RunTestOptions` states |
| `RunnerCommand.ContentResolved` | src/commands/runner/index.ts:54-76 | once resolved, each step's payload is the one the flags determine for it |
| `RunnerCommand.PayloadsShareEnvironment` | src/commands/runner/index.ts:54-76 | all default payloads carry the same environment path and school name, and no two carry the same collection path |
| `RunnerCommand.ExplicitSelectionMatchesDefault` | src/commands/runner/index.ts:78-99 | the `setup-all` payloads followed by the `delete` payloads are the default payloads, though they are split across two executors |
| `RunnerCommand.ExplicitSelectionDeletesRegardless` | src/commands/runner/index.ts:132-152 | `setup-all` then `delete` starts two executors, and the second runs delete-school whatever the setup runs report |
| `RunnerCommand.DefaultDeletesOnlyAfterCleanSetup` | src/commands/runner/index.ts:25-28 | the default chain makes its sixth run, delete-school, exactly when none of the five setup runs failed |
| `RunnerCommand.RunCallResolved` | src/commands/runner/index.ts:190-198 | each run gets its collection path with the suffix appended. The environment path is left unchanged by the second application of its rule. The run also gets the paired data file and the school name under `school_name` |
| `RunnerCommand.EmptySelectionStartsNothing` | src/commands/runner/index.ts:126-129 | an empty `--tests` list starts nothing and gives 0 |
| `RunnerCommand.UnknownNameAfterSetupAll` | src/commands/runner/index.ts:132-152 | with `setup-all` then an unknown name, the setup plan has been started before the unknown name is thrown |
| `RunnerCommand.ParsableNamesNeverThrow` | src/commands/runner/index.ts:16 | handling a `--tests` list returns 0 exactly when every name is `setup-all` or `delete`, the names flag parsing admits, and then starts one plan per name |
| `RunnerCommand.ConcreteEnvironmentPath` | src/commands/runner/index.ts:104-108 | with `--env staging --envPath /e` the environment file is `/e/staging` plus the environment suffix |
| `RunnerCommand.ConcreteSetupSchoolCall` | src/commands/runner/index.ts:112-119 | with `--collectionPath /c --dataPath /d`, setup-school runs `/c/setup-school` plus the collection suffix with `/d/school.json` |
| `HelloCommand.RunTestsCall` | src/commands/hello/runner.ts:49-71 | a run gets the data path and the school name under the key `name` |
| `HelloCommand.Run` | src/commands/hello/runner.ts:21-41 | exactly five runs are started, in the order setup-school, setup-ay-grades, create-timetable, add-teachers, delete-school, each with the payload the flags determine for its step |
| `HelloCommand.RunCalls` | src/commands/hello/runner.ts:37-41 | each run gets its collection path with the suffix appended, the environment path unchanged, its paired data file, and the school name under `name` |
| `HelloCommand.RunsShareEnvironment` | src/commands/hello/runner.ts:37-41 | all five runs share the environment path and the school name |
| `HelloCommand.NoStudentsRun` | src/commands/hello/runner.ts:27-41 | no run uses the add-students collection or the students data file |
| `HelloCommand.HelloPlanIsDefaultWithoutStudents` | src/commands/hello/runner.ts:37-41 | the order is the setup plan without add-students, followed by the delete plan |

## Left out

- The newman engine itself: HTTP requests, assertion scripts, the CLI reporter, and reading the files. A run is only its options object plus an abstract outcome.
- Flag parsing: required flags, the defaults (`localhost` or `local-host`, `test runner newman`) and the closed option sets of `--env` and `--tests`. The model starts from flag values that are already parsed. `RunnerCommand.Runner.Run` accepts names outside the closed `--tests` set, which exercises the defensive throw in `#runTestOptions`; `RunnerCommand.ParsableNamesNeverThrow` states that names from the set never reach it.
- Paths.Join: Node's `path.join` normalisation (collapsing separators, resolving `..`, an empty directory) is not modelled. A join is `dir + "/" + name`.
- Concurrency and timing. `#runTestOptions` starts each plan's executor without waiting for the previous one, and `hello runner` fires its five runs without awaiting any. The model gives the order in which executors are started and, within one executor, the order of its runs. It says nothing about how the runs of different executors interleave. The `throw err` inside the newman callbacks is not modelled.
- Completion callbacks: `RunTests.Start` takes one outcome per payload in place of the engine's callbacks. Its console output is not modelled.
- Logging: both commands print progress and errors to the console; this is not modelled. `RunnerCommand.Runner.Run` does model the result of `run()`: 0, or the thrown unknown-name error. `hello runner` returns nothing. The unused `fs` import and the commented-out file reads in `hello runner` are not modelled.
- Executor.RunTests.Start: returns the chain's terminal 1 or 0 as its result. In the code these are returned from inside the completion callback, so `start()`'s caller never sees them; it gets -1 for an empty list and nothing otherwise.
