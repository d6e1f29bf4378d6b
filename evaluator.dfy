/** The `DockerfileEvaluator` object: it keeps the results of the tests it
    ran, in the order they ran, and the rubric's declared tests; its
    scheduler, path probes and dispatch are proved to compute exactly what
    the specifications in `Checks`, `Scheduler`, `Reporting` and
    `Dockerfile` describe. */
module Evaluator {
  import opened Rubric
  import opened Checks
  import opened Scheduler
  import opened Reporting
  import opened Dockerfile

  /** Building the image from the chosen Dockerfile: whether it succeeded. */
  type Builder = DockerfileChoice -> bool

  // ---------------------------------------------------------------------
  // Removing positions from a list, as `run_tests` does with `pop`

  /** The indices are strictly increasing and all below `n`. */
  predicate IncreasingBelow(idx: seq<nat>, n: nat) {
    (forall a, b :: 0 <= a < b < |idx| ==> idx[a] < idx[b]) &&
    (forall a :: 0 <= a < |idx| ==> idx[a] < n)
  }

  /** The elements of `s` whose positions are not listed in `idx`, in order. */
  ghost function Without<T>(s: seq<T>, idx: seq<nat>): seq<T>
    decreases |s|
  {
    if s == [] then []
    else Without(s[..|s| - 1], idx) + (if |s| - 1 in idx then [] else [s[|s| - 1]])
  }

  /** Python's `s.pop(i)`, as the list it leaves. */
  function RemoveAt<T>(s: seq<T>, i: nat): (r: seq<T>)
    requires i < |s|
    ensures |r| == |s| - 1
    ensures forall k :: 0 <= k < i ==> r[k] == s[k]
    ensures forall k :: i <= k < |r| ==> r[k] == s[k + 1]
  {
    s[..i] + s[i + 1..]
  }

  /** Popping the listed positions, the last one first. */
  ghost function Pops<T>(s: seq<T>, idx: seq<nat>): seq<T>
    requires IncreasingBelow(idx, |s|)
    decreases |idx|
  {
    if idx == [] then s
    else Pops(RemoveAt(s, idx[|idx| - 1]), idx[..|idx| - 1])
  }

  lemma {:induction false} WithoutIrrelevant<T>(s: seq<T>, idx: seq<nat>, idx': seq<nat>)
    requires forall k :: 0 <= k < |s| ==> (k in idx <==> k in idx')
    ensures Without(s, idx) == Without(s, idx')
    decreases |s|
  {
    if s != [] {
      WithoutIrrelevant(s[..|s| - 1], idx, idx');
    }
  }

  lemma {:induction false} WithoutAppend<T>(a: seq<T>, b: seq<T>, idx: seq<nat>)
    requires forall x :: x in idx ==> x < |a|
    ensures Without(a + b, idx) == Without(a, idx) + b
    decreases |b|
  {
    if b == [] {
      assert a + b == a;
    } else {
      var b' := b[..|b| - 1];
      assert (a + b)[..|a + b| - 1] == a + b';
      WithoutAppend(a, b', idx);
      assert b == b' + [b[|b| - 1]];
    }
  }

  lemma {:induction false} WithoutNone<T>(s: seq<T>)
    ensures Without(s, []) == s
    decreases |s|
  {
    if s != [] {
      WithoutNone(s[..|s| - 1]);
    }
  }

  /** Removing position `m` and then the positions below it is removing all. */
  lemma WithoutLast<T>(s: seq<T>, init: seq<nat>, m: nat)
    requires m < |s| && forall x :: x in init ==> x < m
    ensures Without(RemoveAt(s, m), init) == Without(s, init + [m])
  {
    var idx := init + [m];
    var front, back := s[..m], s[m + 1..];
    WithoutAppend(front, back, init);
    assert s == s[..m + 1] + back;
    WithoutAppend(s[..m + 1], back, idx);
    assert s[..m + 1][..m] == front;
    assert Without(s[..m + 1], idx) == Without(front, idx) by {
      assert m in idx;
    }
    forall k | 0 <= k < |front| ensures k in idx <==> k in init {
      assert k in idx <==> k in init || k == m;
    }
    WithoutIrrelevant(front, idx, init);
  }

  /** Popping strictly increasing positions from the back removes exactly
      the elements at those positions. */
  lemma {:induction false} PopsIsWithout<T>(s: seq<T>, idx: seq<nat>)
    requires IncreasingBelow(idx, |s|)
    ensures Pops(s, idx) == Without(s, idx)
    decreases |idx|
  {
    if idx == [] {
      WithoutNone(s);
    } else {
      var m := idx[|idx| - 1];
      var init := idx[..|idx| - 1];
      assert idx == init + [m];
      PopsIsWithout(RemoveAt(s, m), init);
      WithoutLast(s, init, m);
    }
  }

  /** The elements kept so far, one position further. */
  lemma KeptStep<T>(s: seq<T>, i: nat, idx: seq<nat>)
    requires i < |s| && IncreasingBelow(idx, i)
    ensures Without(s[..i + 1], idx + [i]) == Without(s[..i], idx)
    ensures Without(s[..i + 1], idx) == Without(s[..i], idx) + [s[i]]
  {
    assert s[..i + 1][..i] == s[..i];
    WithoutIrrelevant(s[..i], idx + [i], idx);
  }

  // ---------------------------------------------------------------------

  class DockerfileEvaluator {
    const repoName: string
    const dockerfilePath: string
    const rubricPath: string
    /** `self.results`: every result recorded, in order. */
    var results: seq<TestResult>
    /** `self.tests`: the rubric's declared tests, for the maximum score. */
    var tests: seq<Test>

    /** A missing or empty rubric path defaults to `rubrics/<repo>.json`. */
    constructor (repo: string, dockerfile: string, rubric: Option<string>)
      ensures repoName == repo && dockerfilePath == dockerfile
      ensures rubricPath == if rubric.Some? && rubric.value != "" then rubric.value
                            else "rubrics/" + repo + ".json"
      ensures results == [] && tests == []
    {
      repoName := repo;
      dockerfilePath := dockerfile;
      rubricPath := if rubric.Some? && rubric.value != "" then rubric.value
                    else "rubrics/" + repo + ".json";
      results := [];
      tests := [];
    }

    /** `can_run_test`: every required id has a recorded passing result. */
    method CanRunTest(test: Test, completed: Completed) returns (ok: bool)
      ensures ok <==> CanRun(test, completed)
      ensures !ok ==>
        exists k :: 0 <= k < |test.requirements| &&
          (test.requirements[k] !in completed || !completed[test.requirements[k]].passed)
    {
      if |test.requirements| == 0 {
        return true;
      }
      for i := 0 to |test.requirements|
        invariant forall k :: 0 <= k < i ==>
          test.requirements[k] in completed && completed[test.requirements[k]].passed
      {
        var req := test.requirements[i];
        if req !in completed || !completed[req].passed {
          return false;
        }
      }
      return true;
    }

    /** The loop of `test_files_exist` / `test_dirs_exist`: probe each path
        with `test <flag>`, stopping at the first that fails. */
    method ProbePaths(flag: string, paths: seq<string>, run: Runner) returns (passed: bool)
      ensures passed <==> forall k :: 0 <= k < |paths| ==> run(PathTest(flag, paths[k]), NoTimeout).success
      ensures passed == PathsExist(flag, paths, run)
    {
      passed := true;
      var i := 0;
      while i < |paths|
        invariant 0 <= i <= |paths|
        invariant forall k :: 0 <= k < i ==> run(PathTest(flag, paths[k]), NoTimeout).success
      {
        var o := run(PathTest(flag, paths[i]), NoTimeout);
        if !o.success {
          passed := false;
          break;
        }
        i := i + 1;
      }
    }

    method TestFilesExist(t: Test, paths: seq<string>, run: Runner) returns (r: TestResult)
      ensures r == Checks.TestFilesExist(t, paths, run)
    {
      var passed := ProbePaths("-f", paths, run);
      r := TestResult(t.id, "files_exist", passed, if passed then DeclaredScore(t) else 0,
        "Files '" + Text.Join(paths, ", ") + "' " + (if passed then "exist" else "do not exist"));
    }

    method TestDirsExist(t: Test, paths: seq<string>, run: Runner) returns (r: TestResult)
      ensures r == Checks.TestDirsExist(t, paths, run)
    {
      var passed := ProbePaths("-d", paths, run);
      r := TestResult(t.id, "dirs_exist", passed, if passed then DeclaredScore(t) else 0,
        "Directories '" + Text.Join(paths, ", ") + "' " + (if passed then "exist" else "do not exist"));
    }

    /** `run_single_test`: dispatch on the check type. */
    method RunSingleTest(t: Test, run: Runner) returns (r: TestResult)
      ensures r == Checks.Evaluate(t, run)
    {
      match t.check {
        case FilesExist(paths) =>
          r := TestFilesExist(t, paths, run);
        case DirsExist(paths) =>
          r := TestDirsExist(t, paths, run);
        case _ =>
          r := Checks.Evaluate(t, run);
      }
    }

    /** `run_tests`: passes over the pending tests until none is left, a
        pass runs nothing, or 2 * N passes were made. Appends to `results`
        exactly the results `RunAll` describes, and returns all of them. */
    method RunTests(ts: seq<Test>, run: Runner) returns (rs: seq<TestResult>, ghost passes: nat)
      modifies this`results
      ensures results == old(results) + PlanResults(RunAll(ts, Judge(run)), Judge(run))
      ensures passes == RunAll(ts, Judge(run)).passes
      ensures rs == results
    {
      var completed: Completed := map[];
      var remaining := ts;
      var maxIterations := |ts| * 2;
      var iteration := 0;
      ghost var ranSoFar: seq<Test> := [];
      ghost var target := RunAll(ts, Judge(run));
      while remaining != [] && iteration < maxIterations
        invariant iteration <= maxIterations
        invariant ScheduleInv(target, remaining, completed, Judge(run), iteration, maxIterations, ranSoFar)
        invariant results == old(results) + ResultsOf(ranSoFar, Judge(run))
        decreases maxIterations - iteration
      {
        ghost var before, cBefore, atStart := remaining, completed, results;
        iteration := iteration + 1;
        var toRemove;
        ghost var ran;
        toRemove, completed, ran := RunOnePass(remaining, completed, run);
        remaining := PopAll(remaining, toRemove);
        ScheduleAdvance(target, before, cBefore, Judge(run), iteration - 1, maxIterations, ranSoFar,
                        ran, remaining, completed);
        PassResults(old(results), atStart, results, ranSoFar, ran, Judge(run));
        if |toRemove| == 0 && remaining != [] {
          StuckResults(old(results), results, ranSoFar, ran, remaining, target, Judge(run));
          RecordUnresolvable(remaining);
          passes := iteration;
          rs := results;
          return;
        }
        assert ran != [];
        ranSoFar := ranSoFar + ran;
      }
      ScheduleInvDone(target, remaining, completed, Judge(run), iteration, maxIterations, ranSoFar);
      passes := iteration;
      rs := results;
    }

    /** One pass of `run_tests`: every pending test that can run, in list
        order, is run, its result appended and recorded at once; returns
        the positions of the tests that ran, as `tests_to_remove`. */
    method RunOnePass(remaining: seq<Test>, completed0: Completed, run: Runner)
      returns (toRemove: seq<nat>, completed: Completed, ghost ran: seq<Test>)
      modifies this`results
      ensures RunPass(remaining, completed0, Judge(run)) == PassOutcome(ran, Without(remaining, toRemove), completed)
      ensures results == old(results) + ResultsOf(ran, Judge(run))
      ensures IncreasingBelow(toRemove, |remaining|) && |toRemove| == |ran|
    {
      completed := completed0;
      toRemove := [];
      ghost var passRan: seq<Test> := [];
      ghost var passKept: seq<Test> := [];
      PassInvInit(remaining, completed0, Judge(run));
      for i := 0 to |remaining|
        invariant PassInv(remaining, completed0, Judge(run), i, completed, passRan, passKept, toRemove)
        invariant results == old(results) + ResultsOf(passRan, Judge(run))
      {
        var test := remaining[i];
        var can := CanRunTest(test, completed);
        if can {
          PassInvRun(remaining, completed0, Judge(run), i, completed, passRan, passKept, toRemove);
          var result := RunSingleTest(test, run);
          results := results + [result];
          ResultsOfAppend(passRan, [test], Judge(run));
          completed := completed[result.testId := result];
          toRemove := toRemove + [i];
          passRan := passRan + [test];
        } else {
          PassInvSkip(remaining, completed0, Judge(run), i, completed, passRan, passKept, toRemove);
          passKept := passKept + [test];
        }
      }
      PassInvDone(remaining, completed0, Judge(run), completed, passRan, passKept, toRemove);
      ran := passRan;
    }

    /** Popping the positions in reverse order, so that the earlier ones
        keep their place, removes exactly the tests at those positions. */
    method PopAll(s: seq<Test>, toRemove: seq<nat>) returns (remaining: seq<Test>)
      requires IncreasingBelow(toRemove, |s|)
      ensures remaining == Without(s, toRemove)
      ensures |remaining| == |s| - |toRemove|
    {
      remaining := s;
      var j := |toRemove|;
      assert toRemove[..j] == toRemove;
      while j > 0
        invariant 0 <= j <= |toRemove|
        invariant |remaining| == |s| - (|toRemove| - j)
        invariant IncreasingBelow(toRemove[..j], |remaining|)
        invariant Pops(s, toRemove) == Pops(remaining, toRemove[..j])
      {
        assert toRemove[..j - 1] == toRemove[..j][..j - 1];
        remaining := RemoveAt(remaining, toRemove[j - 1]);
        j := j - 1;
      }
      PopsIsWithout(s, toRemove);
    }

    /** After a pass that ran nothing: one failed result per pending test. */
    method RecordUnresolvable(remaining: seq<Test>)
      modifies this`results
      ensures results == old(results) + UnresolvedAll(remaining)
    {
      for k := 0 to |remaining|
        invariant results == old(results) + UnresolvedAll(remaining[..k])
      {
        assert remaining[..k + 1] == remaining[..k] + [remaining[k]];
        UnresolvedAppend(remaining[..k], remaining[k]);
        results := results + [Unresolved(remaining[k])];
      }
      assert remaining[..|remaining|] == remaining;
    }

    /** `generate_report` over the object's results and declared tests. */
    function GenerateReport(): (rep: Report)
      reads this
      ensures rep == BuildReport(repoName, dockerfilePath, rubricPath, results, tests)
      ensures rep.summary.totalTests == |results|
      ensures rep.summary.passedTests + rep.summary.failedTests == |results|
      ensures results != [] ==>
        rep.summary.successRate == Fraction(rep.summary.passedTests, |results|)
      ensures rep.summary.totalScore == SumScores(results)
      ensures rep.summary.maxScore == MaxScore(tests)
      ensures rep.testResults == results
    {
      BuildReport(repoName, dockerfilePath, rubricPath, results, tests)
    }

    /** The build step: rewrite the generic copy patterns when the sources
        directory exists, then build from the chosen Dockerfile. */
    method BuildDockerImage(content: string, repoDirExists: bool, build: Builder)
      returns (ok: bool, choice: DockerfileChoice)
      ensures choice == ChooseDockerfile(content, repoName, repoDirExists)
      ensures ok == build(choice)
    {
      choice := Original;
      if repoDirExists {
        var modified := content;
        if Text.Contains(modified, CopyAll) && !Text.Contains(modified, RepoMarker(repoName)) {
          modified := Text.ReplaceAll(modified, CopyAll, CopyFromRepo(repoName));
        }
        if Text.Contains(modified, AddAll) && !Text.Contains(modified, RepoMarker(repoName)) {
          modified := Text.ReplaceAll(modified, AddAll, AddFromRepo(repoName));
        }
        if modified != content {
          choice := Temporary(modified);
        }
      }
      ok := build(choice);
    }

    /** `evaluate`: store the rubric's tests; with no tests, or when the
        build fails, report without running anything; else run the tests
        and report. */
    method Evaluate(rubricTests: seq<Test>, content: string, repoDirExists: bool,
                    build: Builder, run: Runner) returns (rep: Report)
      modifies this
      ensures tests == rubricTests
      ensures results ==
        if rubricTests == [] || !build(ChooseDockerfile(content, repoName, repoDirExists))
        then old(results)
        else old(results) + PlanResults(RunAll(rubricTests, Judge(run)), Judge(run))
      ensures rep == GenerateReport()
    {
      tests := rubricTests;
      if rubricTests == [] {
        return GenerateReport();
      }
      var built, _ := BuildDockerImage(content, repoDirExists, build);
      if !built {
        return GenerateReport();
      }
      var _, _ := RunTests(rubricTests, run);
      rep := GenerateReport();
    }
  }

  // ---------------------------------------------------------------------
  // Loop invariants of `run_tests`

  /** Inside a pass, after position `i`: the tests run and kept so far,
      followed by what the rest of the pass does from the current map, make
      up the whole pass; `toRemove` lists the positions run so far. */
  ghost predicate PassInv(remaining: seq<Test>, c0: Completed, eval: Evaluation, i: nat,
                          c: Completed, passRan: seq<Test>, passKept: seq<Test>, toRemove: seq<nat>)
  {
    i <= |remaining| && |toRemove| == |passRan| && IncreasingBelow(toRemove, i) &&
    passKept == Without(remaining[..i], toRemove) &&
    var q := RunPass(remaining[i..], c, eval);
    RunPass(remaining, c0, eval) == PassOutcome(passRan + q.ran, passKept + q.kept, q.completed)
  }

  lemma PassInvInit(remaining: seq<Test>, c0: Completed, eval: Evaluation)
    ensures PassInv(remaining, c0, eval, 0, c0, [], [], [])
  {
    assert remaining[0..] == remaining;
  }

  lemma PassInvRun(remaining: seq<Test>, c0: Completed, eval: Evaluation, i: nat,
                   c: Completed, passRan: seq<Test>, passKept: seq<Test>, toRemove: seq<nat>)
    requires PassInv(remaining, c0, eval, i, c, passRan, passKept, toRemove)
    requires i < |remaining| && CanRun(remaining[i], c)
    ensures var r := eval(remaining[i]);
      PassInv(remaining, c0, eval, i + 1, c[r.testId := r], passRan + [remaining[i]], passKept, toRemove + [i])
  {
    PassStep(remaining, i, c, eval);
    KeptStep(remaining, i, toRemove);
  }

  lemma PassInvSkip(remaining: seq<Test>, c0: Completed, eval: Evaluation, i: nat,
                    c: Completed, passRan: seq<Test>, passKept: seq<Test>, toRemove: seq<nat>)
    requires PassInv(remaining, c0, eval, i, c, passRan, passKept, toRemove)
    requires i < |remaining| && !CanRun(remaining[i], c)
    ensures PassInv(remaining, c0, eval, i + 1, c, passRan, passKept + [remaining[i]], toRemove)
  {
    PassStep(remaining, i, c, eval);
    KeptStep(remaining, i, toRemove);
  }

  /** One step of a pass, at position `i`. */
  lemma PassStep(pending: seq<Test>, i: nat, c: Completed, eval: Evaluation)
    requires i < |pending|
    ensures CanRun(pending[i], c) ==>
      var r := eval(pending[i]);
      var q := RunPass(pending[i + 1..], c[r.testId := r], eval);
      RunPass(pending[i..], c, eval) == PassOutcome([pending[i]] + q.ran, q.kept, q.completed)
    ensures !CanRun(pending[i], c) ==>
      var q := RunPass(pending[i + 1..], c, eval);
      RunPass(pending[i..], c, eval) == PassOutcome(q.ran, [pending[i]] + q.kept, q.completed)
  {
    assert pending[i..][0] == pending[i] && pending[i..][1..] == pending[i + 1..];
  }

  lemma PassInvDone(remaining: seq<Test>, c0: Completed, eval: Evaluation,
                    c: Completed, passRan: seq<Test>, passKept: seq<Test>, toRemove: seq<nat>)
    requires PassInv(remaining, c0, eval, |remaining|, c, passRan, passKept, toRemove)
    ensures RunPass(remaining, c0, eval) == PassOutcome(passRan, passKept, c)
    ensures IncreasingBelow(toRemove, |remaining|) && |toRemove| == |passRan|
    ensures Without(remaining, toRemove) == passKept
  {
    assert remaining[..|remaining|] == remaining;
    assert remaining[|remaining|..] == [];
  }

  /** Between passes: the tests run so far, followed by what the remaining
      passes do, make up the whole run. */
  ghost predicate ScheduleInv(target: Plan, remaining: seq<Test>, c: Completed, eval: Evaluation,
                              iteration: nat, maxIterations: nat, ranSoFar: seq<Test>)
  {
    var s := Schedule(remaining, c, eval, iteration, maxIterations);
    target == Plan(ranSoFar + s.ran, s.stuck, iteration + s.passes)
  }

  /** One more pass: if it ran nothing it ends the eval, recording every
      pending test as unresolvable; else the invariant holds for what it kept. */
  lemma ScheduleAdvance(target: Plan, remaining: seq<Test>, c: Completed, eval: Evaluation,
                        iteration: nat, maxIterations: nat, ranSoFar: seq<Test>,
                        ran: seq<Test>, kept: seq<Test>, c': Completed)
    requires ScheduleInv(target, remaining, c, eval, iteration, maxIterations, ranSoFar)
    requires remaining != [] && iteration < maxIterations
    requires RunPass(remaining, c, eval) == PassOutcome(ran, kept, c')
    ensures ran == [] ==>
      kept == remaining && target.passes == iteration + 1 &&
      PlanResults(target, eval) == ResultsOf(ranSoFar, eval) + UnresolvedAll(remaining)
    ensures ran != [] ==>
      ScheduleInv(target, kept, c', eval, iteration + 1, maxIterations, ranSoFar + ran)
  {
    if ran == [] {
      RunPassStalls(remaining, c, eval);
      assert ranSoFar + [] == ranSoFar;
    } else {
      var rest := Schedule(kept, c', eval, iteration + 1, maxIterations);
      assert ranSoFar + (ran + rest.ran) == (ranSoFar + ran) + rest.ran;
    }
  }

  lemma ScheduleInvDone(target: Plan, remaining: seq<Test>, c: Completed, eval: Evaluation,
                        iteration: nat, maxIterations: nat, ranSoFar: seq<Test>)
    requires ScheduleInv(target, remaining, c, eval, iteration, maxIterations, ranSoFar)
    requires remaining == [] || iteration >= maxIterations
    ensures target == Plan(ranSoFar, [], iteration)
    ensures PlanResults(target, eval) == ResultsOf(ranSoFar, eval)
  {
    assert ranSoFar + [] == ranSoFar;
    assert ResultsOf(ranSoFar, eval) + UnresolvedAll([]) == ResultsOf(ranSoFar, eval);
  }

  /** The results appended by one pass extend those of the tests run so far. */
  lemma PassResults(start: seq<TestResult>, atStart: seq<TestResult>, now: seq<TestResult>,
                    ranSoFar: seq<Test>, ran: seq<Test>, eval: Evaluation)
    requires atStart == start + ResultsOf(ranSoFar, eval)
    requires now == atStart + ResultsOf(ran, eval)
    ensures now == start + ResultsOf(ranSoFar + ran, eval)
  {
    ResultsOfAppend(ranSoFar, ran, eval);
    AppendAssoc(start, ResultsOf(ranSoFar, eval), ResultsOf(ran, eval));
  }

  /** A pass that ran nothing: recording what is left as unresolvable
      completes the results of the whole run. */
  lemma StuckResults(start: seq<TestResult>, now: seq<TestResult>, ranSoFar: seq<Test>,
                     ran: seq<Test>, remaining: seq<Test>, target: Plan, eval: Evaluation)
    requires ran == [] && now == start + ResultsOf(ranSoFar + ran, eval)
    requires PlanResults(target, eval) == ResultsOf(ranSoFar, eval) + UnresolvedAll(remaining)
    ensures now + UnresolvedAll(remaining) == start + PlanResults(target, eval)
  {
    assert ranSoFar + ran == ranSoFar;
    AppendAssoc(start, ResultsOf(ranSoFar, eval), UnresolvedAll(remaining));
  }

  lemma AppendAssoc<T>(a: seq<T>, b: seq<T>, c: seq<T>)
    ensures (a + b) + c == a + (b + c)
  {
  }

  lemma UnresolvedAppend(a: seq<Test>, t: Test)
    ensures UnresolvedAll(a + [t]) == UnresolvedAll(a) + [Unresolved(t)]
  {
    assert forall k :: 0 <= k < |a| ==> (a + [t])[k] == a[k];
  }
}
