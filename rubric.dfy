/** The data of a rubric run: declarative tests, their results, and the
    outcome of one command run inside the built image. */
module Rubric {

  datatype Option<T> = None | Some(value: T) {
    function GetOr(default: T): T {
      match this
      case Some(v) => v
      case None => default
    }
  }

  /** One check type with its parameters, defaults already filled in
      (a missing `name`, `command` or `path` is "", a missing list is []).
      `Unrecognized` carries the rubric's `type` field, or None if absent. */
  datatype Check =
    | CommandExists(name: string)
    | OutputContains(command: string, contains: seq<string>)
    | FilesExist(paths: seq<string>)
    | DirsExist(paths: seq<string>)
    | EnvvarSet(name: string)
    | FileContains(path: string, contains: seq<string>)
    | RunCommand(command: string)
    | Unrecognized(typeName: Option<string>)

  /** One declarative test of the rubric. */
  datatype Test = Test(
    id: string,
    check: Check,
    score: Option<int>,
    timeout: Option<int>,
    requirements: seq<string>)  // the rubric's `requires` list

  /** `TestResult` without its wall-clock `execution_time`. */
  datatype TestResult = TestResult(
    testId: string,
    testType: string,
    passed: bool,
    score: int,
    message: string)

  /** What running one command in the container gives back:
      exit status zero, captured stdout, captured stderr. */
  datatype Outcome = Outcome(success: bool, stdout: string, stderr: string)

  /** The command runner inside the built image: command and timeout in
      seconds (NoTimeout for none) to an outcome. Each call runs in a fresh
      container, so the runner is a plain function. */
  type Runner = (string, int) -> Outcome

  const DefaultScore := 1
  const DefaultCommandTimeout := 30
  const NoTimeout := -1

  /** The points a test awards when it passes: its `score`, default 1. */
  function DeclaredScore(t: Test): int {
    t.score.GetOr(DefaultScore)
  }

  /** The timeout given to commands of `output_contains` and `run_command`. */
  function CommandTimeout(t: Test): int {
    t.timeout.GetOr(DefaultCommandTimeout)
  }

  /** The rubric's `type` string of a check; `missing` stands for an absent field. */
  function TypeName(c: Check, missing: string): string {
    match c
    case CommandExists(_) => "command_exists"
    case OutputContains(_, _) => "output_contains"
    case FilesExist(_) => "files_exist"
    case DirsExist(_) => "dirs_exist"
    case EnvvarSet(_) => "envvar_set"
    case FileContains(_, _) => "file_contains"
    case RunCommand(_) => "run_command"
    case Unrecognized(n) => n.GetOr(missing)
  }
}
