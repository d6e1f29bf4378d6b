/** The seven check evaluators and the dispatch on the check type.
    Each maps a test and the command runner to a result; a result scores
    the test's declared points when it passes and 0 otherwise. */
module Checks {
  import opened Rubric
  import opened Text

  /** The shell commands the evaluators hand to the runner. */
  function CommandLookup(name: string): string { "command -v " + name }
  function PathTest(flag: string, path: string): string { "test " + flag + " '" + path + "'" }
  function EnvvarTest(name: string): string { "test -n \"$" + name + "\"" }
  function ReadFile(path: string): string { "cat '" + path + "'" }

  /** The items of `items` that occur in `text`, in list order. */
  function FoundMatches(items: seq<string>, text: string): (r: seq<string>)
    ensures forall k :: 0 <= k < |r| ==> r[k] in items && Contains(text, r[k])
    ensures forall k :: 0 <= k < |items| && Contains(text, items[k]) ==> items[k] in r
    ensures |r| > 0 <==> exists k :: 0 <= k < |items| && Contains(text, items[k])
    decreases |items|
  {
    if items == [] then []
    else
      var rest := FoundMatches(items[1..], text);
      assert forall k :: 1 <= k < |items| ==> items[k] == items[1..][k - 1];
      if Contains(text, items[0]) then [items[0]] + rest else rest
  }

  /** Whether every path passes `test <flag>`, probing in list order and
      stopping at the first failure. */
  function PathsExist(flag: string, paths: seq<string>, run: Runner): (r: bool)
    ensures r <==> forall k :: 0 <= k < |paths| ==> run(PathTest(flag, paths[k]), NoTimeout).success
    decreases |paths|
  {
    if paths == [] then true
    else if !run(PathTest(flag, paths[0]), NoTimeout).success then false
    else
      assert forall k :: 1 <= k < |paths| ==> paths[k] == paths[1..][k - 1];
      PathsExist(flag, paths[1..], run)
  }

  function TestCommandExists(t: Test, name: string, run: Runner): (r: TestResult)
    ensures r.testId == t.id && r.testType == "command_exists"
    ensures var o := run(CommandLookup(name), NoTimeout);
      r.passed <==> o.success && exists i :: 0 <= i < |o.stdout| && !IsSpace(o.stdout[i])
    ensures r.score == if r.passed then DeclaredScore(t) else 0
  {
    var o := run(CommandLookup(name), NoTimeout);
    var passed := o.success && Strip(o.stdout) != "";
    TestResult(t.id, "command_exists", passed, if passed then DeclaredScore(t) else 0,
      "Command '" + name + "' " + (if passed then "found" else "not found"))
  }

  function TestOutputContains(t: Test, command: string, contains: seq<string>, run: Runner): (r: TestResult)
    ensures r.testId == t.id && r.testType == "output_contains"
    ensures var o := run(command, CommandTimeout(t));
      r.passed <==> o.success && exists k :: 0 <= k < |contains| && Contains(o.stdout + o.stderr, contains[k])
    ensures var o := run(command, CommandTimeout(t));
      !o.success ==> r.message == "Command failed: " + o.stderr
    ensures r.score == if r.passed then DeclaredScore(t) else 0
  {
    var o := run(command, CommandTimeout(t));
    if !o.success then
      TestResult(t.id, "output_contains", false, 0, "Command failed: " + o.stderr)
    else
      var found := FoundMatches(contains, o.stdout + o.stderr);
      var passed := |found| > 0;
      TestResult(t.id, "output_contains", passed, if passed then DeclaredScore(t) else 0,
        if passed then "Output contains: " + Join(found, ", ")
        else "Output does not contain any of: " + Join(contains, ", "))
  }

  function TestFilesExist(t: Test, paths: seq<string>, run: Runner): (r: TestResult)
    ensures r.testId == t.id && r.testType == "files_exist"
    ensures r.passed <==> forall k :: 0 <= k < |paths| ==> run(PathTest("-f", paths[k]), NoTimeout).success
    ensures r.score == if r.passed then DeclaredScore(t) else 0
  {
    var passed := PathsExist("-f", paths, run);
    TestResult(t.id, "files_exist", passed, if passed then DeclaredScore(t) else 0,
      "Files '" + Join(paths, ", ") + "' " + (if passed then "exist" else "do not exist"))
  }

  function TestDirsExist(t: Test, paths: seq<string>, run: Runner): (r: TestResult)
    ensures r.testId == t.id && r.testType == "dirs_exist"
    ensures r.passed <==> forall k :: 0 <= k < |paths| ==> run(PathTest("-d", paths[k]), NoTimeout).success
    ensures r.score == if r.passed then DeclaredScore(t) else 0
  {
    var passed := PathsExist("-d", paths, run);
    TestResult(t.id, "dirs_exist", passed, if passed then DeclaredScore(t) else 0,
      "Directories '" + Join(paths, ", ") + "' " + (if passed then "exist" else "do not exist"))
  }

  function TestEnvvarSet(t: Test, name: string, run: Runner): (r: TestResult)
    ensures r.testId == t.id && r.testType == "envvar_set"
    ensures r.passed <==> run(EnvvarTest(name), NoTimeout).success
    ensures r.score == if r.passed then DeclaredScore(t) else 0
  {
    var passed := run(EnvvarTest(name), NoTimeout).success;
    TestResult(t.id, "envvar_set", passed, if passed then DeclaredScore(t) else 0,
      "Environment variable '" + name + "' " + (if passed then "is set" else "is not set"))
  }

  function TestFileContains(t: Test, path: string, contains: seq<string>, run: Runner): (r: TestResult)
    ensures r.testId == t.id && r.testType == "file_contains"
    ensures var e := run(PathTest("-f", path), NoTimeout); var c := run(ReadFile(path), NoTimeout);
      r.passed <==> e.success && c.success && exists k :: 0 <= k < |contains| && Contains(c.stdout, contains[k])
    ensures !run(PathTest("-f", path), NoTimeout).success ==>
      r.message == "File '" + path + "' does not exist"
    ensures var c := run(ReadFile(path), NoTimeout);
      run(PathTest("-f", path), NoTimeout).success && !c.success ==>
      r.message == "Could not read file '" + path + "': " + c.stderr
    ensures r.score == if r.passed then DeclaredScore(t) else 0
  {
    var e := run(PathTest("-f", path), NoTimeout);
    if !e.success then
      TestResult(t.id, "file_contains", false, 0, "File '" + path + "' does not exist")
    else
      var c := run(ReadFile(path), NoTimeout);
      if !c.success then
        TestResult(t.id, "file_contains", false, 0, "Could not read file '" + path + "': " + c.stderr)
      else
        var found := FoundMatches(contains, c.stdout);
        var passed := |found| > 0;
        TestResult(t.id, "file_contains", passed, if passed then DeclaredScore(t) else 0,
          if passed then "File contains: " + Join(found, ", ")
          else "File does not contain any of: " + Join(contains, ", "))
  }

  function TestRunCommand(t: Test, command: string, run: Runner): (r: TestResult)
    ensures r.testId == t.id && r.testType == "run_command"
    ensures r.passed <==> run(command, CommandTimeout(t)).success
    ensures var o := run(command, CommandTimeout(t));
      !o.success ==> r.message == "Command failed: " + Take(o.stderr, 100) + "..."
    ensures r.score == if r.passed then DeclaredScore(t) else 0
  {
    var o := run(command, CommandTimeout(t));
    var passed := o.success;
    TestResult(t.id, "run_command", passed, if passed then DeclaredScore(t) else 0,
      if passed then "Command executed successfully"
      else "Command failed: " + Take(o.stderr, 100) + "...")
  }

  /** `run_single_test`: dispatch on the check type; an unrecognised type
      yields a failed result naming it. */
  function Evaluate(t: Test, run: Runner): (r: TestResult)
    ensures r.testId == t.id
    ensures r.testType == TypeName(t.check, "")
    ensures r.score == if r.passed then DeclaredScore(t) else 0
    ensures t.check.Unrecognized? ==>
      !r.passed && r.message == "Unknown test type: " + TypeName(t.check, "")
  {
    match t.check
    case CommandExists(name) => TestCommandExists(t, name, run)
    case OutputContains(command, contains) => TestOutputContains(t, command, contains, run)
    case FilesExist(paths) => TestFilesExist(t, paths, run)
    case DirsExist(paths) => TestDirsExist(t, paths, run)
    case EnvvarSet(name) => TestEnvvarSet(t, name, run)
    case FileContains(path, contains) => TestFileContains(t, path, contains, run)
    case RunCommand(command) => TestRunCommand(t, command, run)
    case Unrecognized(n) =>
      TestResult(t.id, n.GetOr(""), false, 0, "Unknown test type: " + n.GetOr(""))
  }
}
