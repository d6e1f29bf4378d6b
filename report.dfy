/** `generate_report`: counts and point totals over the results of a run and
    the rubric's declared tests. */
module Reporting {
  import opened Rubric
  import opened Checks
  import opened Scheduler

  /** `success_rate`: 0 when there are no results, else passed / total,
      kept as the pair of integers. */
  datatype Rate = Zero | Fraction(passed: nat, total: nat)

  datatype Summary = Summary(
    totalTests: nat,
    passedTests: nat,
    failedTests: nat,
    totalScore: int,
    maxScore: int,
    successRate: Rate)

  datatype Report = Report(
    repo: string,
    dockerfile: string,
    rubric: string,
    summary: Summary,
    testResults: seq<TestResult>)

  /** The indices of the passed results. */
  function PassedIndices(rs: seq<TestResult>): set<int> {
    set k | 0 <= k < |rs| && rs[k].passed
  }

  /** `sum(1 for r in results if r.passed)`. */
  function CountPassed(rs: seq<TestResult>): (n: nat)
    ensures n <= |rs|
    ensures n == |rs| <==> forall k :: 0 <= k < |rs| ==> rs[k].passed
    ensures n == 0 <==> forall k :: 0 <= k < |rs| ==> !rs[k].passed
    decreases |rs|
  {
    if rs == [] then 0
    else
      var init := rs[..|rs| - 1];
      assert forall k :: 0 <= k < |init| ==> init[k] == rs[k];
      CountPassed(init) + if rs[|rs| - 1].passed then 1 else 0
  }

  /** The count is the number of indices of passed results. */
  lemma {:induction false} CountPassedIndices(rs: seq<TestResult>)
    ensures CountPassed(rs) == |PassedIndices(rs)|
    decreases |rs|
  {
    if rs != [] {
      var init := rs[..|rs| - 1];
      CountPassedIndices(init);
      assert forall k :: 0 <= k < |init| ==> init[k] == rs[k];
      assert PassedIndices(rs) ==
        PassedIndices(init) + (if rs[|rs| - 1].passed then {|rs| - 1} else {});
    }
  }

  /** `sum(r.score for r in results)`. */
  function SumScores(rs: seq<TestResult>): (total: int)
    ensures (forall k :: 0 <= k < |rs| ==> rs[k].score >= 0) ==> total >= 0
    ensures (forall k :: 0 <= k < |rs| ==> rs[k].score == 0) ==> total == 0
    decreases |rs|
  {
    if rs == [] then 0 else rs[0].score + SumScores(rs[1..])
  }

  /** `sum(test.get('score', 1) for test in tests)`. */
  function MaxScore(tests: seq<Test>): (total: int)
    ensures (forall k :: 0 <= k < |tests| ==> DeclaredScore(tests[k]) >= 0) ==> total >= 0
    ensures (forall k :: 0 <= k < |tests| ==> tests[k].score.None?) ==> total == |tests|
    decreases |tests|
  {
    if tests == [] then 0 else DeclaredScore(tests[0]) + MaxScore(tests[1..])
  }

  function BuildReport(repo: string, dockerfile: string, rubric: string,
                       results: seq<TestResult>, tests: seq<Test>): (rep: Report)
    ensures rep.summary.totalTests == |results|
    ensures rep.summary.passedTests == |PassedIndices(results)|
    ensures rep.summary.passedTests == 0 <==> forall k :: 0 <= k < |results| ==> !results[k].passed
    ensures rep.summary.passedTests + rep.summary.failedTests == |results|
    ensures rep.summary.failedTests == 0 <==> forall k :: 0 <= k < |results| ==> results[k].passed
    ensures rep.summary.successRate == Zero <==> results == []
    ensures results != [] ==>
      rep.summary.successRate == Fraction(rep.summary.passedTests, rep.summary.totalTests)
    ensures rep.summary.successRate.Fraction? ==>
      0 < rep.summary.successRate.total && rep.summary.successRate.passed <= rep.summary.successRate.total
    ensures rep.summary.totalScore == SumScores(results)
    ensures rep.summary.maxScore == MaxScore(tests)
    ensures rep.testResults == results
  {
    var total := |results|;
    var passed := CountPassed(results);
    CountPassedIndices(results);
    Report(repo, dockerfile, rubric,
      Summary(total, passed, total - passed, SumScores(results), MaxScore(tests),
        if total > 0 then Fraction(passed, total) else Zero),
      results)
  }

  // ---------------------------------------------------------------------
  // Sums

  lemma {:induction false} SumScoresAppend(a: seq<TestResult>, b: seq<TestResult>)
    ensures SumScores(a + b) == SumScores(a) + SumScores(b)
    decreases |a|
  {
    if a == [] {
      assert a + b == b;
    } else {
      assert (a + b)[1..] == a[1..] + b;
      SumScoresAppend(a[1..], b);
    }
  }

  lemma {:induction false} MaxScoreAppend(a: seq<Test>, b: seq<Test>)
    ensures MaxScore(a + b) == MaxScore(a) + MaxScore(b)
    decreases |a|
  {
    if a == [] {
      assert a + b == b;
    } else {
      assert (a + b)[1..] == a[1..] + b;
      MaxScoreAppend(a[1..], b);
    }
  }

  /** The maximum score does not depend on the order of the tests. */
  lemma {:induction false} MaxScorePermutation(a: seq<Test>, b: seq<Test>)
    requires multiset(a) == multiset(b)
    ensures MaxScore(a) == MaxScore(b)
    decreases |a|
  {
    if a != [] {
      assert a[0] in multiset(b);
      var j :| 0 <= j < |b| && b[j] == a[0];
      var b' := b[..j] + b[j + 1..];
      MaxScoreRemove(b, j);
      MultisetRemove(b, j);
      assert a == [a[0]] + a[1..];
      assert multiset(a[1..]) == multiset(b');
      MaxScorePermutation(a[1..], b');
    }
  }

  lemma MaxScoreRemove(b: seq<Test>, j: nat)
    requires j < |b|
    ensures MaxScore(b) == DeclaredScore(b[j]) + MaxScore(b[..j] + b[j + 1..])
  {
    var before, at, after := b[..j], [b[j]], b[j + 1..];
    SplitAround(b, j);
    MaxScoreAppend(before + at, after);
    MaxScoreAppend(before, at);
    MaxScoreAppend(before, after);
    assert MaxScore(at) == DeclaredScore(b[j]) + MaxScore([]);
  }

  lemma MultisetRemove<T>(b: seq<T>, j: nat)
    requires j < |b|
    ensures multiset(b[..j] + b[j + 1..]) == multiset(b) - multiset{b[j]}
  {
    SplitAround(b, j);
  }

  /** A sequence around one of its elements, stated apart from the score
      functions so that proving it does not unfold them. */
  lemma SplitAround<T>(b: seq<T>, j: nat)
    requires j < |b|
    ensures b == (b[..j] + [b[j]]) + b[j + 1..]
  {
    assert b[..j] + [b[j]] == b[..j + 1];
  }

  lemma {:induction false} UnresolvedScoreZero(ts: seq<Test>)
    ensures SumScores(UnresolvedAll(ts)) == 0
    decreases |ts|
  {
    if ts != [] {
      assert UnresolvedAll(ts)[1..] == UnresolvedAll(ts[1..]);
      UnresolvedScoreZero(ts[1..]);
    }
  }

  /** Evaluated tests score between 0 and their declared points. */
  lemma {:induction false} EvaluatedScoreBounds(ts: seq<Test>, run: Runner)
    requires forall k :: 0 <= k < |ts| ==> DeclaredScore(ts[k]) >= 0
    ensures 0 <= SumScores(ResultsOf(ts, Judge(run))) <= MaxScore(ts)
    decreases |ts|
  {
    if ts != [] {
      assert ResultsOf(ts, Judge(run))[1..] == ResultsOf(ts[1..], Judge(run));
      EvaluatedScoreBounds(ts[1..], run);
    }
  }

  /** Evaluated tests that all pass score exactly their declared points. */
  lemma {:induction false} AllPassedScoreMax(ts: seq<Test>, run: Runner)
    requires forall k :: 0 <= k < |ts| ==> Evaluate(ts[k], run).passed
    ensures SumScores(ResultsOf(ts, Judge(run))) == MaxScore(ts)
    decreases |ts|
  {
    if ts != [] {
      assert ResultsOf(ts, Judge(run))[1..] == ResultsOf(ts[1..], Judge(run));
      assert forall k :: 0 <= k < |ts[1..]| ==> ts[1..][k] == ts[k + 1];
      AllPassedScoreMax(ts[1..], run);
    }
  }

  // ---------------------------------------------------------------------
  // Properties of the report of a run

  /** After a run of tests with non-negative declared scores, the report
      counts one result per test, its total score lies between 0 and the
      maximum, and it reaches the maximum when every test passed. */
  lemma RunReportBounds(repo: string, dockerfile: string, rubric: string,
                        tests: seq<Test>, run: Runner, rep: Report)
    requires forall k :: 0 <= k < |tests| ==> DeclaredScore(tests[k]) >= 0
    requires rep == BuildReport(repo, dockerfile, rubric, PlanResults(RunAll(tests, Judge(run)), Judge(run)), tests)
    ensures rep.summary.totalTests == |tests|
    ensures 0 <= rep.summary.totalScore <= rep.summary.maxScore
    ensures rep.summary.failedTests == 0 ==> rep.summary.totalScore == rep.summary.maxScore
  {
    var plan := RunAll(tests, Judge(run));
    OneResultPerTest(tests, Judge(run), plan);
    PlanScoreBounds(tests, plan, run);
  }

  /** The results of a plan that rearranges `tests` score between 0 and the
      tests' maximum, and reach it when every result passed. */
  lemma PlanScoreBounds(tests: seq<Test>, plan: Plan, run: Runner)
    requires forall k :: 0 <= k < |tests| ==> DeclaredScore(tests[k]) >= 0
    requires multiset(plan.ran + plan.stuck) == multiset(tests)
    ensures 0 <= SumScores(PlanResults(plan, Judge(run))) <= MaxScore(tests)
    ensures AllPassed(PlanResults(plan, Judge(run))) ==> SumScores(PlanResults(plan, Judge(run))) == MaxScore(tests)
  {
    PlanScoreIsRanScore(plan, run);
    assert MaxScore(tests) == MaxScore(plan.ran) + MaxScore(plan.stuck) by {
      MaxScorePermutation(plan.ran + plan.stuck, tests);
      MaxScoreAppend(plan.ran, plan.stuck);
    }
    NonNegativeParts(tests, plan);
    EvaluatedScoreBounds(plan.ran, run);
    if AllPassed(PlanResults(plan, Judge(run))) {
      AllPassedNoneStuck(plan, run);
      AllPassedScoreMax(plan.ran, run);
    }
  }

  predicate AllPassed(rs: seq<TestResult>) {
    forall k :: 0 <= k < |rs| ==> rs[k].passed
  }

  /** Unresolved tests add nothing to the score. */
  lemma PlanScoreIsRanScore(plan: Plan, run: Runner)
    ensures SumScores(PlanResults(plan, Judge(run))) == SumScores(ResultsOf(plan.ran, Judge(run)))
  {
    SumScoresAppend(ResultsOf(plan.ran, Judge(run)), UnresolvedAll(plan.stuck));
    UnresolvedScoreZero(plan.stuck);
  }

  /** A plan all of whose results passed left no test unresolved. */
  lemma AllPassedNoneStuck(plan: Plan, run: Runner)
    requires AllPassed(PlanResults(plan, Judge(run)))
    ensures plan.stuck == []
    ensures forall k :: 0 <= k < |plan.ran| ==> Evaluate(plan.ran[k], run).passed
  {
    var rs := PlanResults(plan, Judge(run));
    var n := |plan.ran|;
    if plan.stuck != [] {
      StuckFails(plan, run);
      assert false;
    }
    forall k | 0 <= k < n ensures Evaluate(plan.ran[k], run).passed {
      assert rs[k] == Evaluate(plan.ran[k], run);
    }
  }

  /** An unresolved test's result is a failure. */
  lemma StuckFails(plan: Plan, run: Runner)
    requires plan.stuck != []
    ensures !AllPassed(PlanResults(plan, Judge(run)))
  {
    assert PlanResults(plan, Judge(run))[|plan.ran|] == Unresolved(plan.stuck[0]);
  }

  lemma NonNegativeParts(tests: seq<Test>, plan: Plan)
    requires forall k :: 0 <= k < |tests| ==> DeclaredScore(tests[k]) >= 0
    requires multiset(plan.ran + plan.stuck) == multiset(tests)
    ensures forall k :: 0 <= k < |plan.ran| ==> DeclaredScore(plan.ran[k]) >= 0
    ensures forall k :: 0 <= k < |plan.stuck| ==> DeclaredScore(plan.stuck[k]) >= 0
  {
    forall k | 0 <= k < |plan.ran| ensures DeclaredScore(plan.ran[k]) >= 0 {
      assert plan.ran[k] in multiset(plan.ran + plan.stuck);
    }
    forall k | 0 <= k < |plan.stuck| ensures DeclaredScore(plan.stuck[k]) >= 0 {
      assert plan.stuck[k] in multiset(plan.ran + plan.stuck);
    }
  }
}
