# Dockerfile rubric evaluator, modelled in Dafny

`DockerfileEvaluator.py` judges a Dockerfile against a JSON rubric. It builds
the image, then runs declarative tests inside the image and totals their
points. The tests are: a command exists, a command's output contains a
string, files or directories exist, an environment variable is set, a file
contains a string, and a command succeeds. A test may name other tests
(`requires`) that have to pass before it runs.

This project models the evaluator's core and proves properties of it:

- `rubric.dfy` (`Rubric`): the rubric test, the `TestResult` record and the outcome of one
  container command. The command runner (`run_docker_command`) is a function
  parameter of type `Runner`.
- `text.dfy` (`Text`): the Python string operations the core uses: `in`, `strip()`,
  `replace()`, `join`, slicing and the `str()` of a list of strings.
- `checks.dfy` (`Checks`): the seven test evaluators and the dispatch on the test type.
  Each one is a pure function of the test and the runner.
- `scheduler.dfy` (`Scheduler`): the dependency scheduler of `run_tests` as a
  specification over values. `RunPass` is one pass, `Schedule` all passes, and
  `RunAll` a whole run capped at 2·N passes. The scheduler is generic in how a
  test becomes a result (`Evaluation`); `Judge(run)` is the evaluator's own
  dispatch. Its lemmas cover:
  - gating, where a result recorded earlier in the same pass counts;
  - one result per test;
  - the bound on passes;
  - what a stall records;
  - failed prerequisites and dependency cycles.
- `report.dfy` (`Reporting`): `generate_report` on integer fields, with the bounds
  of the total score.
- `dockerfile.dfy` (`Dockerfile`): the rewrite of `COPY . .` / `ADD . .` before the build,
  and the choice to build from a temporary Dockerfile.
- `evaluator.dfy` (`Evaluator`): the `DockerfileEvaluator` object as a class with the
  fields `results` and `tests`. `run_tests` is a method with the source's loops
  (passes, the inner `for`, the reverse `pop`s, the stall), and so are
  `can_run_test` and the path-probing loops. Each method is proved to compute
  exactly what the specification functions say.

## Model

| member | source | states |
|---|---|---|
| `Checks.FoundMatches` | DockerfileEvaluator.py:209-211 | the matches are exactly the listed items occurring in the text, and there is one exactly when some item occurs |
| `Checks.PathsExist` | DockerfileEvaluator.py:229-234 | the probe loop passes exactly when `test <flag> '<path>'` succeeds for every path |
| `Checks.TestCommandExists` | DockerfileEvaluator.py:173-188 | passes iff `command -v <name>` succeeds with output that is not all white space; type `command_exists`; declared score when passed, else 0 |
| `Checks.TestOutputContains` | DockerfileEvaluator.py:190-219 | passes iff the command (with the test's timeout, default 30) succeeds and stdout+stderr contains some listed item; a failed command gives `Command failed: <stderr>` |
| `Checks.TestFilesExist` | DockerfileEvaluator.py:221-240 | passes iff every path passes `test -f`; type `files_exist`; score rule |
| `Checks.TestDirsExist` | DockerfileEvaluator.py:242-261 | passes iff every path passes `test -d`; type `dirs_exist`; score rule |
| `Checks.TestEnvvarSet` | DockerfileEvaluator.py:263-278 | passes iff `test -n "$<name>"` succeeds; type `envvar_set`; score rule |
| `Checks.TestFileContains` | DockerfileEvaluator.py:280-315 | passes iff the file exists, can be read and its content contains some listed item; the two early failures carry their own messages |
| `Checks.TestRunCommand` | DockerfileEvaluator.py:317-337 | passes iff the command succeeds under the test's timeout; a failure quotes at most 100 characters of stderr followed by `...` |
| `Checks.Evaluate` | DockerfileEvaluator.py:350-369 | the result carries the test's id and its type name, scores the declared points exactly when passed, and an unknown type fails with `Unknown test type: <type>` |
| `Scheduler.JudgeKeepsIds` | DockerfileEvaluator.py:350-369 | every result of the evaluator's dispatch carries the id of its test |
| `Scheduler.CanRun` | DockerfileEvaluator.py:339-348 | a test can run iff every id it requires has a recorded result that passed; a test without requirements always can |
| `Scheduler.Record` | DockerfileEvaluator.py:387 | recording results keeps every id already recorded, and the id of the last result recorded maps to that result |
| `Scheduler.ResultsOf` | DockerfileEvaluator.py:384-386 | one result per test, in order, each the evaluation of its test |
| `Scheduler.Unresolved` | DockerfileEvaluator.py:401-405 | the result for an unresolvable test carries the test's id and type name, fails and scores 0 |
| `Scheduler.UnresolvedAll` | DockerfileEvaluator.py:400-406 | one `Unresolved` result per remaining test, in order |
| `Scheduler.PlanResults` | DockerfileEvaluator.py:384-406 | one result for each test the run evaluated or recorded as unresolvable |
| `Scheduler.RunPassSplits` | DockerfileEvaluator.py:381-396 | a pass splits the pending tests into those it ran and those it kept, as multisets |
| `Scheduler.RunPassRecords` | DockerfileEvaluator.py:382-387 | after a pass the completed map is the old one with the results of the tests it ran recorded in order |
| `Scheduler.RunPassGates` | DockerfileEvaluator.py:382-387 | a pass runs a test only when its prerequisites passed, counting results recorded earlier in the same pass |
| `Scheduler.RunPassStalls` | DockerfileEvaluator.py:381-399 | a pass that runs nothing keeps every pending test, changes no entry, and none of those tests can run |
| `Scheduler.ScheduleWithinBudget` | DockerfileEvaluator.py:375-378 | on any budget the passes stop at `max_iterations`, and an empty list takes no pass |
| `Scheduler.ScheduleRetiresEachOnce` | DockerfileEvaluator.py:378-407 | on any budget the run evaluates or records at most as many tests as were pending |
| `Scheduler.ScheduleCovers` | DockerfileEvaluator.py:375-409 | with a budget not shorter than the pending list, every pending test is run or left unresolved exactly once, within at most one pass per test, and zero passes exactly when nothing is pending |
| `Scheduler.AllReadyAppend` | DockerfileEvaluator.py:378-387 | two stretches of runnable tests, the second run against the results of the first, form one runnable stretch |
| `Scheduler.ScheduleGates` | DockerfileEvaluator.py:378-409 | over all passes each run test could run when its turn came, and each unresolved test cannot run against all recorded results |
| `Scheduler.OneResultPerTest` | DockerfileEvaluator.py:371-409 | one result per input test (a permutation of the tests), at most N passes so the 2·N cap never stops a run, and no pass for an empty list |
| `Scheduler.RunGates` | DockerfileEvaluator.py:339-348 | every test evaluated met `can_run_test` against the results recorded before it, and every unresolved test fails it against all of them |
| `Scheduler.RunResults` | DockerfileEvaluator.py:384-406 | the run's results: evaluated results in run order with the score rule, then one failed, zero-score `Unresolvable dependencies: <requires>` result per stuck test |
| `Scheduler.PrerequisitesRanFirst` | DockerfileEvaluator.py:339-348 | each prerequisite id of an evaluated test belongs to an earlier evaluated test whose result passed |
| `Scheduler.RanIsTest` | DockerfileEvaluator.py:373-396 | only tests of the input are evaluated |
| `Scheduler.FailedPrerequisiteBlocks` | DockerfileEvaluator.py:339-348 | when no test with id `x` passes, every test requiring `x` is never evaluated and is recorded as unresolvable |
| `Scheduler.ClosedGroupNeverRuns` | DockerfileEvaluator.py:399-407 | a group of ids whose every test requires an id of the group (a cycle) is recorded as unresolvable, none of it evaluated |
| `Scheduler.GroupMemberNeverRuns` | DockerfileEvaluator.py:339-348 | no evaluated test belongs to such a group |
| `Scheduler.NoRequirementsRunInOrder` | DockerfileEvaluator.py:342-343 | without dependencies every test runs in rubric order in a single pass, and an empty list in none |
| `Scheduler.AllRunnablePass` | DockerfileEvaluator.py:381-392 | a pass over tests without dependencies runs all of them in order and keeps none |
| `Scheduler.SamePassChain` | DockerfileEvaluator.py:381-387 | a test listed after its passing prerequisite runs in the same, single pass |
| `Scheduler.PrerequisiteListedLater` | DockerfileEvaluator.py:378-396 | listed before its passing prerequisite, a test runs in the second pass |
| `Scheduler.FailedPrerequisiteStalls` | DockerfileEvaluator.py:399-407 | after a failed prerequisite the dependant stays pending until the next pass runs nothing and records it as unresolvable |
| `Reporting.CountPassed` | DockerfileEvaluator.py:424 | the passed count is at most the total, equals it iff all passed, and is 0 iff none passed |
| `Reporting.CountPassedIndices` | DockerfileEvaluator.py:424 | the passed count is the number of positions holding a passed result |
| `Reporting.SumScores` | DockerfileEvaluator.py:425 | the total score is non-negative when every result's score is, and 0 when every result scores 0 |
| `Reporting.MaxScore` | DockerfileEvaluator.py:426 | the maximum score is non-negative when every declared score is, and one point per test when no test declares a score |
| `Reporting.BuildReport` | DockerfileEvaluator.py:421-455 | total, passed and failed counts, total score, maximum over the declared tests with default 1, the result list itself, and a success rate of 0 exactly when there are no results, otherwise `Fraction(passed, total)` |
| `Reporting.SumScoresAppend` | DockerfileEvaluator.py:425 | the total score of two result lists is the sum of their totals |
| `Reporting.MaxScoreAppend` | DockerfileEvaluator.py:426 | the maximum score of two test lists is the sum of their maxima |
| `Reporting.MaxScorePermutation` | DockerfileEvaluator.py:426 | the maximum score does not depend on the order of the tests |
| `Reporting.UnresolvedScoreZero` | DockerfileEvaluator.py:401-406 | unresolvable results add nothing to the total |
| `Reporting.EvaluatedScoreBounds` | DockerfileEvaluator.py:425-426 | evaluated tests with non-negative declared scores total between 0 and their maximum |
| `Reporting.AllPassedScoreMax` | DockerfileEvaluator.py:425-426 | evaluated tests that all pass total exactly their maximum |
| `Reporting.RunReportBounds` | DockerfileEvaluator.py:421-455 | when every declared score is non-negative: after a run, one result per rubric test, 0 ≤ total score ≤ max score, and the maximum is reached when no test failed |
| `Reporting.PlanScoreBounds` | DockerfileEvaluator.py:425-426 | when every declared score is non-negative: the results of any rearrangement of the tests into evaluated and unresolved ones total between 0 and the maximum, reaching it when all passed |
| `Reporting.PlanScoreIsRanScore` | DockerfileEvaluator.py:399-406 | the total score of a run is that of its evaluated tests |
| `Reporting.AllPassedNoneStuck` | DockerfileEvaluator.py:399-406 | a run whose every result passed left no test unresolved |
| `Reporting.StuckFails` | DockerfileEvaluator.py:401-405 | a run with an unresolved test has a failed result |
| `Dockerfile.ChooseDockerfile` | DockerfileEvaluator.py:77-104 | a temporary Dockerfile holds the rewritten text and differs from the original; without the sources directory the original is used |
| `Dockerfile.RewriteOne` | DockerfileEvaluator.py:84-85 | one guarded replacement leaves the text as it is when the pattern is absent or `data/<repo>` is already named |
| `Dockerfile.RewriteCopyPatterns` | DockerfileEvaluator.py:83-91 | both replacements leave the text as it is when it already names `data/<repo>` or has neither `COPY . .` nor `ADD . .` |
| `Dockerfile.RewriteOneMarks` | DockerfileEvaluator.py:84-92 | a replacement that fires leaves the text naming `data/<repo>` |
| `Dockerfile.CopyBlocksAdd` | DockerfileEvaluator.py:84-92 | once `COPY . .` was replaced, the ADD check reads the modified text and no longer fires |
| `Dockerfile.RewriteChangesIff` | DockerfileEvaluator.py:84-94 | the rewrite changes the text iff it does not name `data/<repo>` and has `COPY . .` or `ADD . .`; a changed text names it |
| `Dockerfile.RewriteIdempotent` | DockerfileEvaluator.py:84-92 | rewriting twice is rewriting once |
| `Dockerfile.TemporaryIff` | DockerfileEvaluator.py:77-104 | a temporary Dockerfile is used iff the sources directory exists and the rewrite has something to change |
| `Text.ContainsIffOccurs` | DockerfileEvaluator.py:84 | the `in` scan holds exactly when the needle occurs at some index |
| `Text.Contains` | DockerfileEvaluator.py:84 | `in`: an empty needle is always found, and a needle that is found is no longer than the text |
| `Text.Strip` | DockerfileEvaluator.py:184 | `strip()` is no longer than its input, is empty exactly when the input is all white space, and otherwise starts and ends with a character that is not white space |
| `Text.Join` | DockerfileEvaluator.py:215-217 | `', '.join(...)`: every item occurs in the joined text |
| `Text.ListRepr` | DockerfileEvaluator.py:405 | `str()` of the `requires` list: it is bracketed, `[]` when empty, and every id appears in it between single quotes |
| `Text.Take` | DockerfileEvaluator.py:335 | `s[:n]` is a prefix of at most `n` characters, the whole string when it is short enough |
| `Text.ReplaceAll` | DockerfileEvaluator.py:85 | `replace` leaves a text without the pattern unchanged |
| `Text.ReplaceAllIntroduces` | DockerfileEvaluator.py:85 | a replacement that finds the pattern leaves the replacement text behind |
| `Evaluator.PopsIsWithout` | DockerfileEvaluator.py:395-396 | popping strictly increasing positions from the back removes exactly the tests at those positions |
| `Evaluator.DockerfileEvaluator.constructor` | DockerfileEvaluator.py:40-47 | a missing or empty rubric path becomes `rubrics/<repo>.json`; no results or tests yet |
| `Evaluator.DockerfileEvaluator.CanRunTest` | DockerfileEvaluator.py:339-348 | true iff every required id has a passing recorded result; when false, a requirement is missing or failed |
| `Evaluator.DockerfileEvaluator.ProbePaths` | DockerfileEvaluator.py:229-234 | the loop with `break` passes iff every probe succeeds, equal to `PathsExist` |
| `Evaluator.DockerfileEvaluator.TestFilesExist` | DockerfileEvaluator.py:221-240 | equals `Checks.TestFilesExist` |
| `Evaluator.DockerfileEvaluator.TestDirsExist` | DockerfileEvaluator.py:242-261 | equals `Checks.TestDirsExist` |
| `Evaluator.DockerfileEvaluator.RunSingleTest` | DockerfileEvaluator.py:350-369 | equals the dispatch `Checks.Evaluate` |
| `Evaluator.DockerfileEvaluator.RunTests` | DockerfileEvaluator.py:371-409 | appends to `results` exactly the results `RunAll` describes and returns all results; the number of passes is `RunAll`'s |
| `Evaluator.DockerfileEvaluator.RunOnePass` | DockerfileEvaluator.py:380-388 | one pass is `RunPass`: the positions it returns are increasing, the tests it ran and the map are `RunPass`'s, and their results are appended in order |
| `Evaluator.DockerfileEvaluator.PopAll` | DockerfileEvaluator.py:394-396 | the reverse `pop`s leave exactly the tests at the other positions, in order |
| `Evaluator.DockerfileEvaluator.RecordUnresolvable` | DockerfileEvaluator.py:399-407 | appends one `Unresolved` result per remaining test, in order |
| `Evaluator.DockerfileEvaluator.GenerateReport` | DockerfileEvaluator.py:421-455 | is exactly `BuildReport` of the object's results and declared tests, so its success rate is `Fraction(passed, total)` whenever there is a result |
| `Evaluator.DockerfileEvaluator.BuildDockerImage` | DockerfileEvaluator.py:63-115 | the chosen Dockerfile is `ChooseDockerfile`'s and the outcome is the build's on that choice |
| `Evaluator.DockerfileEvaluator.Evaluate` | DockerfileEvaluator.py:457-488 | stores the tests; with no tests or a failed build no results are added, otherwise exactly the run's; returns the report |

## Left out

- Docker itself is left out. `run_docker_command` is the `Runner` parameter: a function from a command and a timeout (-1 for none) to success, stdout and stderr. It covers timeouts and exceptions, whose outcomes are failures with the stderr text the code gives. The image build is the `Builder` parameter, given the chosen Dockerfile.
- Every runner call is taken to depend only on its command and timeout, because each runs with `docker run --rm` in a fresh container. So stopping early in the path loops changes no result, only the number of calls.
- Whether `data/<repo>` exists is the `repoDirExists` parameter.
- Temporary files, their cleanup, `cleanup()`, `load_rubric`, `main` and all printing are left out. `evaluate` receives the rubric's test list instead of reading the rubric file.
- `execution_time` and `total_execution_time` are left out because they are floating-point wall-clock times.
- `success_rate` is kept as the pair passed/total (`Rate.Fraction`), with `Rate.Zero` for no results, because it is a floating-point quotient.
- Default test ids built from Python's `hash(...)` are left out: every `Test` carries its id. The hash is salted per process, so no fixed value could model it.
- The deterministic default ids are not derived either. Without an `id`, `test_command_exists` names its result `command_exists_<name>` (DockerfileEvaluator.py:178) and `test_envvar_set` names it `envvar_set_<name>` (DockerfileEvaluator.py:268), and a rubric may list such a name in `requires`. In the model the rubric's `Test` already carries that id.
- A test without an `id` gets one id when it is evaluated (its type's default, DockerfileEvaluator.py:178-323) and another, `unknown_<hash>`, when it is recorded as unresolvable (DockerfileEvaluator.py:402). The model has the single id `Test.id` and uses it on both paths, so it does not capture the two ids differing.
- Reporting.RunReportBounds: the bounds 0 ≤ total score ≤ max score are proved only when every declared score is non-negative. Python accepts a negative `score` (DockerfileEvaluator.py:179, 426), and then the total can be negative.
- Reporting.PlanScoreBounds: the same non-negative condition on declared scores, for the same reason.
- `Text.ListRepr` does not escape quotes or backslashes inside the `requires` ids, as Python's `str()` of a list would.
- The `contains` items of a rubric are taken to be strings. `str(item)` of a number or other JSON value is not modelled.
- Checking the rubric's JSON shape is left out: a `params` field of the wrong type would raise in Python. The `Check` datatype already holds the parameters with their defaults.
- Integers are unbounded, as Python's are.
- `Evaluator.DockerfileEvaluator.RunTests` ships its inner pass, the reverse pops and the stall records as the helper methods `RunOnePass`, `PopAll` and `RecordUnresolvable`. They keep the same loops in the same order.
