/** The dependency scheduler of `run_tests`, as a specification over values.
    A pass tries every pending test in list order and runs those whose
    prerequisites have passing recorded results, recording each result at
    once; passes repeat until nothing is pending, or until a pass runs
    nothing, when every pending test is recorded as unresolvable. At most
    2 * N passes are attempted. */
module Scheduler {
  import opened Rubric
  import opened Text
  import opened Checks

  /** How a test becomes a result; the scheduler sees `run_single_test` as
      nothing more than this. */
  type Evaluation = Test -> TestResult

  /** `run_single_test` against a command runner: the check dispatch. */
  function Judge(run: Runner): Evaluation {
    t => Evaluate(t, run)
  }

  /** The result of a test carries that test's id. */
  ghost predicate KeepsIds(eval: Evaluation) {
    forall t :: eval(t).testId == t.id
  }

  lemma JudgeKeepsIds(run: Runner)
    ensures KeepsIds(Judge(run))
  {
  }

  /** `completed_tests`: the latest result recorded under each test id. */
  type Completed = map<string, TestResult>

  /** `can_run_test`: every required id has a recorded result that passed. */
  predicate CanRun(t: Test, completed: Completed): (ok: bool)
    ensures ok <==> forall x :: x in t.requirements ==> x in completed && completed[x].passed
    ensures t.requirements == [] ==> ok
  {
    forall k :: 0 <= k < |t.requirements| ==>
      t.requirements[k] in completed && completed[t.requirements[k]].passed
  }

  /** The map after recording `rs` into `c` in order. */
  function Record(c: Completed, rs: seq<TestResult>): (r: Completed)
    ensures c.Keys <= r.Keys
    ensures rs != [] ==> rs[|rs| - 1].testId in r && r[rs[|rs| - 1].testId] == rs[|rs| - 1]
    decreases |rs|
  {
    if rs == [] then c
    else
      var rest := rs[1..];
      assert rest != [] ==> rest[|rest| - 1] == rs[|rs| - 1];
      Record(c[rs[0].testId := rs[0]], rest)
  }

  /** The results of evaluating `ts` in order. */
  function ResultsOf(ts: seq<Test>, eval: Evaluation): (r: seq<TestResult>)
    ensures |r| == |ts|
    ensures forall k :: 0 <= k < |ts| ==> r[k] == eval(ts[k])
    decreases |ts|
  {
    if ts == [] then [] else [eval(ts[0])] + ResultsOf(ts[1..], eval)
  }

  /** The result recorded for a test left over by a pass that ran nothing. */
  function Unresolved(t: Test): (r: TestResult)
    ensures r.testId == t.id && !r.passed && r.score == 0
    ensures r.testType == TypeName(t.check, "unknown")
  {
    TestResult(t.id, TypeName(t.check, "unknown"), false, 0,
      "Unresolvable dependencies: " + ListRepr(t.requirements))
  }

  function UnresolvedAll(ts: seq<Test>): (r: seq<TestResult>)
    ensures |r| == |ts|
    ensures forall k :: 0 <= k < |ts| ==> r[k] == Unresolved(ts[k])
    decreases |ts|
  {
    if ts == [] then [] else [Unresolved(ts[0])] + UnresolvedAll(ts[1..])
  }

  /** What one pass does: the tests it ran, in order; the tests it kept
      pending, in order; and the completed map afterwards. */
  datatype PassOutcome = PassOutcome(ran: seq<Test>, kept: seq<Test>, completed: Completed)

  function RunPass(pending: seq<Test>, completed: Completed, eval: Evaluation): PassOutcome
    decreases |pending|
  {
    if pending == [] then PassOutcome([], [], completed)
    else
      var t := pending[0];
      if CanRun(t, completed) then
        var r := eval(t);
        var rest := RunPass(pending[1..], completed[r.testId := r], eval);
        rest.(ran := [t] + rest.ran)
      else
        var rest := RunPass(pending[1..], completed, eval);
        rest.(kept := [t] + rest.kept)
  }

  /** A whole run: the tests evaluated, in the order they ran; the tests
      recorded as unresolvable, in list order; and the number of passes. */
  datatype Plan = Plan(ran: seq<Test>, stuck: seq<Test>, passes: nat)

  /** The passes from pass number `iteration` on, at most `maxIterations` in all. */
  function Schedule(remaining: seq<Test>, completed: Completed, eval: Evaluation,
                    iteration: nat, maxIterations: nat): Plan
    decreases maxIterations - iteration
  {
    if remaining == [] || iteration >= maxIterations then Plan([], [], 0)
    else
      var p := RunPass(remaining, completed, eval);
      if p.ran == [] then Plan([], remaining, 1)
      else
        var rest := Schedule(p.kept, p.completed, eval, iteration + 1, maxIterations);
        Plan(p.ran + rest.ran, rest.stuck, rest.passes + 1)
  }

  /** `run_tests` on a rubric's tests, from an empty completed map. */
  function RunAll(tests: seq<Test>, eval: Evaluation): Plan {
    Schedule(tests, map[], eval, 0, 2 * |tests|)
  }

  /** The results a plan appends, in order. */
  function PlanResults(p: Plan, eval: Evaluation): (r: seq<TestResult>)
    ensures |r| == |p.ran| + |p.stuck|
  {
    ResultsOf(p.ran, eval) + UnresolvedAll(p.stuck)
  }

  /** Results completed before position `k` of the run, as a map. */
  function CompletedBefore(ran: seq<Test>, k: nat, eval: Evaluation): Completed
    requires k <= |ran|
  {
    Record(map[], ResultsOf(ran[..k], eval))
  }

  /** The test at position `k` of `ran` could run against `c` with the
      results of the tests before it recorded. */
  predicate ReadyAt(ran: seq<Test>, c: Completed, eval: Evaluation, k: nat)
    requires k < |ran|
  {
    CanRun(ran[k], Record(c, ResultsOf(ran[..k], eval)))
  }

  /** Every test of `ran` could run when its turn came. */
  predicate AllReady(ran: seq<Test>, c: Completed, eval: Evaluation) {
    forall k :: 0 <= k < |ran| ==> ReadyAt(ran, c, eval, k)
  }

  /** No test of `ts` can run against `c`. */
  predicate NoneReady(ts: seq<Test>, c: Completed) {
    forall k :: 0 <= k < |ts| ==> !CanRun(ts[k], c)
  }

  // ---------------------------------------------------------------------
  // Helpers on Record and ResultsOf

  lemma {:induction false} RecordAppend(c: Completed, a: seq<TestResult>, b: seq<TestResult>)
    ensures Record(c, a + b) == Record(Record(c, a), b)
    decreases |a|
  {
    if a != [] {
      assert (a + b)[0] == a[0] && (a + b)[1..] == a[1..] + b;
      RecordAppend(c[a[0].testId := a[0]], a[1..], b);
    } else {
      assert a + b == b;
    }
  }

  lemma ResultsOfAppend(a: seq<Test>, b: seq<Test>, eval: Evaluation)
    ensures ResultsOf(a + b, eval) == ResultsOf(a, eval) + ResultsOf(b, eval)
  {
    assert forall k :: |a| <= k < |a + b| ==> (a + b)[k] == b[k - |a|];
  }

  /** A recorded entry is the last recorded result with that id, or
      else what the map held before. */
  lemma {:induction false} RecordLookup(c: Completed, rs: seq<TestResult>, x: string)
    requires x in Record(c, rs)
    ensures (exists j :: 0 <= j < |rs| && rs[j].testId == x && Record(c, rs)[x] == rs[j])
         || (x in c && Record(c, rs)[x] == c[x])
    decreases |rs|
  {
    if rs != [] {
      var c' := c[rs[0].testId := rs[0]];
      RecordLookup(c', rs[1..], x);
      if exists j :: 0 <= j < |rs[1..]| && rs[1..][j].testId == x && Record(c', rs[1..])[x] == rs[1..][j] {
        var j :| 0 <= j < |rs[1..]| && rs[1..][j].testId == x && Record(c', rs[1..])[x] == rs[1..][j];
        assert rs[j + 1] == rs[1..][j];
      } else if x == rs[0].testId {
        assert Record(c, rs)[x] == rs[0];
      }
    }
  }

  // ---------------------------------------------------------------------
  // One pass

  /** A pass splits the pending tests into those it ran and those it kept. */
  lemma {:induction false} RunPassSplits(pending: seq<Test>, c: Completed, eval: Evaluation)
    ensures var p := RunPass(pending, c, eval);
      multiset(p.ran) + multiset(p.kept) == multiset(pending)
    decreases |pending|
  {
    if pending != [] {
      var t := pending[0];
      assert pending == [t] + pending[1..];
      if CanRun(t, c) {
        var r := eval(t);
        RunPassSplits(pending[1..], c[r.testId := r], eval);
      } else {
        RunPassSplits(pending[1..], c, eval);
      }
    }
  }

  /** A pass records, in order, the results of the tests it ran. */
  lemma {:induction false} RunPassRecords(pending: seq<Test>, c: Completed, eval: Evaluation)
    ensures var p := RunPass(pending, c, eval);
      p.completed == Record(c, ResultsOf(p.ran, eval))
    decreases |pending|
  {
    if pending != [] {
      var t := pending[0];
      var p := RunPass(pending, c, eval);
      if CanRun(t, c) {
        var r := eval(t);
        var rest := RunPass(pending[1..], c[r.testId := r], eval);
        RunPassRecords(pending[1..], c[r.testId := r], eval);
        assert p.ran == [t] + rest.ran;
        assert ResultsOf(p.ran, eval) == [r] + ResultsOf(rest.ran, eval);
      } else {
        RunPassRecords(pending[1..], c, eval);
      }
    }
  }

  /** A pass runs a test only when its prerequisites passed, counting the
      results recorded earlier in the same pass. */
  lemma {:induction false} RunPassGates(pending: seq<Test>, c: Completed, eval: Evaluation)
    ensures AllReady(RunPass(pending, c, eval).ran, c, eval)
    decreases |pending|
  {
    if pending != [] {
      var t := pending[0];
      var p := RunPass(pending, c, eval);
      if CanRun(t, c) {
        var r := eval(t);
        var c' := c[r.testId := r];
        var rest := RunPass(pending[1..], c', eval);
        RunPassGates(pending[1..], c', eval);
        assert p.ran == [t] + rest.ran;
        forall k | 0 <= k < |p.ran|
          ensures ReadyAt(p.ran, c, eval, k)
        {
          if k > 0 {
            assert p.ran[..k] == [t] + rest.ran[..k - 1];
            assert ResultsOf(p.ran[..k], eval) == [r] + ResultsOf(rest.ran[..k - 1], eval);
            assert ReadyAt(rest.ran, c', eval, k - 1);
            assert p.ran[k] == rest.ran[k - 1];
          } else {
            assert ResultsOf(p.ran[..k], eval) == [];
            assert p.ran[k] == t;
          }
        }
      } else {
        var rest := RunPass(pending[1..], c, eval);
        RunPassGates(pending[1..], c, eval);
      }
    }
  }

  /** A pass that runs nothing keeps every pending test, none of which can run. */
  lemma {:induction false} RunPassStalls(pending: seq<Test>, c: Completed, eval: Evaluation)
    requires RunPass(pending, c, eval).ran == []
    ensures RunPass(pending, c, eval).kept == pending
    ensures RunPass(pending, c, eval).completed == c
    ensures NoneReady(pending, c)
    decreases |pending|
  {
    if pending != [] {
      RunPassStalls(pending[1..], c, eval);
      assert forall k :: 1 <= k < |pending| ==> pending[k] == pending[1..][k - 1];
    }
  }

  // ---------------------------------------------------------------------
  // All passes

  /** Whatever the budget, the passes from pass number `iteration` on stop
      at `maxIterations`, and nothing pending takes no pass. */
  lemma {:induction false} ScheduleWithinBudget(remaining: seq<Test>, c: Completed, eval: Evaluation,
                                                iteration: nat, maxIterations: nat)
    ensures var s := Schedule(remaining, c, eval, iteration, maxIterations);
      && (iteration <= maxIterations ==> s.passes <= maxIterations - iteration)
      && (remaining == [] ==> s == Plan([], [], 0))
    decreases maxIterations - iteration
  {
    if remaining != [] && iteration < maxIterations {
      var p := RunPass(remaining, c, eval);
      if p.ran != [] {
        ScheduleWithinBudget(p.kept, p.completed, eval, iteration + 1, maxIterations);
      }
    }
  }

  /** Whatever the budget, no pending test is retired twice. */
  lemma {:induction false} ScheduleRetiresEachOnce(remaining: seq<Test>, c: Completed, eval: Evaluation,
                                                   iteration: nat, maxIterations: nat)
    ensures var s := Schedule(remaining, c, eval, iteration, maxIterations);
      |s.ran| + |s.stuck| <= |remaining|
    decreases maxIterations - iteration
  {
    if remaining != [] && iteration < maxIterations {
      var p := RunPass(remaining, c, eval);
      RunPassSplits(remaining, c, eval);
      assert |p.ran| + |p.kept| == |remaining| by {
        assert |multiset(p.ran) + multiset(p.kept)| == |multiset(remaining)|;
      }
      if p.ran != [] {
        ScheduleRetiresEachOnce(p.kept, p.completed, eval, iteration + 1, maxIterations);
      }
    }
  }

  /** When the pass budget is not short, every remaining test ends up either
      run or unresolvable, exactly once, and each pass but a stalled last
      one retires a test. */
  lemma {:induction false} ScheduleCovers(remaining: seq<Test>, c: Completed, eval: Evaluation,
                                          iteration: nat, maxIterations: nat)
    requires iteration + |remaining| <= maxIterations
    ensures var s := Schedule(remaining, c, eval, iteration, maxIterations);
      && multiset(s.ran) + multiset(s.stuck) == multiset(remaining)
      && s.passes <= |remaining|
      && (s.passes == 0 <==> remaining == [])
    decreases maxIterations - iteration
  {
    if remaining != [] {
      var p := RunPass(remaining, c, eval);
      RunPassSplits(remaining, c, eval);
      if p.ran != [] {
        assert |p.ran| + |p.kept| == |remaining| by {
          assert |multiset(p.ran) + multiset(p.kept)| == |multiset(remaining)|;
        }
        ScheduleCovers(p.kept, p.completed, eval, iteration + 1, maxIterations);
      }
    }
  }

  /** Two stretches of runnable tests, the second against the results of
      the first, make one. */
  lemma AllReadyAppend(a: seq<Test>, b: seq<Test>, c: Completed, eval: Evaluation)
    requires AllReady(a, c, eval)
    requires AllReady(b, Record(c, ResultsOf(a, eval)), eval)
    ensures AllReady(a + b, c, eval)
  {
    forall k | 0 <= k < |a + b|
      ensures ReadyAt(a + b, c, eval, k)
    {
      if k < |a| {
        ReadyInPrefix(a, b, c, eval, k);
      } else {
        ReadyInSuffix(a, b, c, eval, k);
      }
    }
  }

  lemma ReadyInPrefix(a: seq<Test>, b: seq<Test>, c: Completed, eval: Evaluation, k: nat)
    requires k < |a| && ReadyAt(a, c, eval, k)
    ensures ReadyAt(a + b, c, eval, k)
  {
    assert (a + b)[..k] == a[..k];
    assert (a + b)[k] == a[k];
  }

  lemma ReadyInSuffix(a: seq<Test>, b: seq<Test>, c: Completed, eval: Evaluation, k: nat)
    requires |a| <= k < |a| + |b| && AllReady(b, Record(c, ResultsOf(a, eval)), eval)
    ensures ReadyAt(a + b, c, eval, k)
  {
    var j := k - |a|;
    assert ReadyAt(b, Record(c, ResultsOf(a, eval)), eval, j);
    assert (a + b)[..k] == a + b[..j];
    ResultsOfAppend(a, b[..j], eval);
    RecordAppend(c, ResultsOf(a, eval), ResultsOf(b[..j], eval));
    assert (a + b)[k] == b[j];
  }

  /** Every test runs only after each of its prerequisites has a passing
      recorded result, and the unresolvable tests are exactly stuck: none
      could run against all the results recorded. */
  lemma {:induction false} ScheduleGates(remaining: seq<Test>, c: Completed, eval: Evaluation,
                                         iteration: nat, maxIterations: nat)
    ensures AllReady(Schedule(remaining, c, eval, iteration, maxIterations).ran, c, eval)
    ensures NoneReady(Schedule(remaining, c, eval, iteration, maxIterations).stuck,
                      Record(c, ResultsOf(Schedule(remaining, c, eval, iteration, maxIterations).ran, eval)))
    decreases maxIterations - iteration
  {
    var s := Schedule(remaining, c, eval, iteration, maxIterations);
    if remaining != [] && iteration < maxIterations {
      var p := RunPass(remaining, c, eval);
      if p.ran == [] {
        RunPassStalls(remaining, c, eval);
        assert s.ran == [] && s.stuck == remaining;
        assert ResultsOf(s.ran, eval) == [];
      } else {
        RunPassGates(remaining, c, eval);
        RunPassRecords(remaining, c, eval);
        var rest := Schedule(p.kept, p.completed, eval, iteration + 1, maxIterations);
        ScheduleGates(p.kept, p.completed, eval, iteration + 1, maxIterations);
        assert s.ran == p.ran + rest.ran;
        AllReadyAppend(p.ran, rest.ran, c, eval);
        ResultsOfAppend(p.ran, rest.ran, eval);
        RecordAppend(c, ResultsOf(p.ran, eval), ResultsOf(rest.ran, eval));
      }
    }
  }

  // ---------------------------------------------------------------------
  // Properties of run_tests

  /** Every input test contributes exactly one result, the run takes at most
      N passes (so the 2 * N cap is never what stops it), and an empty list
      takes none. */
  lemma OneResultPerTest(tests: seq<Test>, eval: Evaluation, plan: Plan)
    requires plan == RunAll(tests, eval)
    ensures multiset(plan.ran + plan.stuck) == multiset(tests)
    ensures |PlanResults(plan, eval)| == |tests|
    ensures plan.passes <= |tests|
    ensures plan.passes == 0 <==> tests == []
  {
    ScheduleCovers(tests, map[], eval, 0, 2 * |tests|);
    assert |multiset(plan.ran + plan.stuck)| == |multiset(tests)|;
  }

  /** A test is evaluated only when each of its prerequisites already has a
      passing result among those recorded before it (earlier in the same
      pass included); every test recorded as unresolvable lacks one among
      all the results recorded. */
  lemma RunGates(tests: seq<Test>, eval: Evaluation, plan: Plan)
    requires plan == RunAll(tests, eval)
    ensures forall k :: 0 <= k < |plan.ran| ==> CanRun(plan.ran[k], CompletedBefore(plan.ran, k, eval))
    ensures forall k :: 0 <= k < |plan.stuck| ==>
      !CanRun(plan.stuck[k], CompletedBefore(plan.ran, |plan.ran|, eval))
  {
    ScheduleGates(tests, map[], eval, 0, 2 * |tests|);
    forall k | 0 <= k < |plan.ran|
      ensures CanRun(plan.ran[k], CompletedBefore(plan.ran, k, eval))
    {
      assert ReadyAt(plan.ran, map[], eval, k);
    }
    assert plan.ran[..|plan.ran|] == plan.ran;
  }

  /** The results of a run: first those evaluated, in the order they ran, each
      scoring its declared points exactly when it passed; then one failed,
      zero-score "Unresolvable dependencies" result per stuck test. */
  lemma RunResults(plan: Plan, run: Runner)
    ensures forall k :: 0 <= k < |plan.ran| ==>
      var r := PlanResults(plan, Judge(run))[k];
      && r == Evaluate(plan.ran[k], run) && r.testId == plan.ran[k].id
      && r.score == (if r.passed then DeclaredScore(plan.ran[k]) else 0)
    ensures forall k :: 0 <= k < |plan.stuck| ==>
      var r := PlanResults(plan, Judge(run))[|plan.ran| + k];
      && r.testId == plan.stuck[k].id && !r.passed && r.score == 0
      && r.message == "Unresolvable dependencies: " + ListRepr(plan.stuck[k].requirements)
  {
    var rs := PlanResults(plan, Judge(run));
    forall k | 0 <= k < |plan.stuck|
      ensures rs[|plan.ran| + k] == Unresolved(plan.stuck[k])
    {
      assert rs[|plan.ran| + k] == UnresolvedAll(plan.stuck)[k];
    }
  }

  /** A test that ran had, for each prerequisite id, an earlier run test of
      that id whose result passed. */
  lemma PrerequisitesRanFirst(tests: seq<Test>, eval: Evaluation, plan: Plan, k: nat, x: string)
    requires KeepsIds(eval)
    requires plan == RunAll(tests, eval)
    requires k < |plan.ran| && x in plan.ran[k].requirements
    ensures exists j :: 0 <= j < k && plan.ran[j].id == x && eval(plan.ran[j]).passed
  {
    RunGates(tests, eval, plan);
    var rs := ResultsOf(plan.ran[..k], eval);
    assert CanRun(plan.ran[k], CompletedBefore(plan.ran, k, eval));
    assert x in Record(map[], rs) && Record(map[], rs)[x].passed;
    RecordLookup(map[], rs, x);
    var j :| 0 <= j < |rs| && rs[j].testId == x && Record(map[], rs)[x] == rs[j];
    assert plan.ran[..k][j] == plan.ran[j];
  }

  lemma RanIsTest(tests: seq<Test>, eval: Evaluation, plan: Plan, j: nat)
    requires plan == RunAll(tests, eval)
    requires j < |plan.ran|
    ensures plan.ran[j] in tests
  {
    OneResultPerTest(tests, eval, plan);
    assert plan.ran[j] in multiset(plan.ran + plan.stuck);
  }

  /** A failed prerequisite blocks forever: if no test with id `x` passes,
      every test requiring `x` is recorded as unresolvable and never runs. */
  lemma FailedPrerequisiteBlocks(tests: seq<Test>, eval: Evaluation, plan: Plan, x: string)
    requires KeepsIds(eval)
    requires plan == RunAll(tests, eval)
    requires forall u :: u in tests && u.id == x ==> !eval(u).passed
    ensures forall t :: t in tests && x in t.requirements ==> t !in plan.ran && t in plan.stuck
  {
    OneResultPerTest(tests, eval, plan);
    forall t | t in tests && x in t.requirements
      ensures t !in plan.ran && t in plan.stuck
    {
      if t in plan.ran {
        var k :| 0 <= k < |plan.ran| && plan.ran[k] == t;
        PrerequisitesRanFirst(tests, eval, plan, k, x);
        var j :| 0 <= j < k && plan.ran[j].id == x && eval(plan.ran[j]).passed;
        RanIsTest(tests, eval, plan, j);
        assert false;
      }
      assert t in multiset(plan.ran + plan.stuck);
    }
  }

  /** A group of ids whose every test requires some id of the group (a cycle,
      or a group hanging off ids no test has) never runs: all its tests are
      recorded as unresolvable. */
  lemma ClosedGroupNeverRuns(tests: seq<Test>, eval: Evaluation, plan: Plan, group: set<string>)
    requires KeepsIds(eval)
    requires plan == RunAll(tests, eval)
    requires forall t :: t in tests && t.id in group ==>
      exists k :: 0 <= k < |t.requirements| && t.requirements[k] in group
    ensures forall t :: t in tests && t.id in group ==> t !in plan.ran && t in plan.stuck
  {
    OneResultPerTest(tests, eval, plan);
    forall k | 0 <= k < |plan.ran| ensures plan.ran[k].id !in group {
      GroupMemberNeverRuns(tests, eval, plan, group, k);
    }
    forall t | t in tests && t.id in group
      ensures t !in plan.ran && t in plan.stuck
    {
      assert t in multiset(plan.ran + plan.stuck);
    }
  }

  lemma {:induction false} GroupMemberNeverRuns(tests: seq<Test>, eval: Evaluation, plan: Plan,
                                                group: set<string>, k: nat)
    requires KeepsIds(eval)
    requires plan == RunAll(tests, eval)
    requires forall t :: t in tests && t.id in group ==>
      exists i :: 0 <= i < |t.requirements| && t.requirements[i] in group
    requires k < |plan.ran|
    ensures plan.ran[k].id !in group
    decreases k
  {
    var t := plan.ran[k];
    if t.id in group {
      OneResultPerTest(tests, eval, plan);
      assert t in multiset(plan.ran + plan.stuck);
      var i :| 0 <= i < |t.requirements| && t.requirements[i] in group;
      PrerequisitesRanFirst(tests, eval, plan, k, t.requirements[i]);
      var j :| 0 <= j < k && plan.ran[j].id == t.requirements[i] && eval(plan.ran[j]).passed;
      GroupMemberNeverRuns(tests, eval, plan, group, j);
    }
  }

  /** Without dependencies every test runs, in rubric order, in one pass. */
  lemma NoRequirementsRunInOrder(tests: seq<Test>, eval: Evaluation)
    requires forall k :: 0 <= k < |tests| ==> tests[k].requirements == []
    ensures RunAll(tests, eval) == Plan(tests, [], if tests == [] then 0 else 1)
  {
    if tests != [] {
      AllRunnablePass(tests, map[], eval);
      var p := RunPass(tests, map[], eval);
      assert Schedule(p.kept, p.completed, eval, 1, 2 * |tests|) == Plan([], [], 0);
      assert tests + [] == tests;
    }
  }

  lemma {:induction false} AllRunnablePass(pending: seq<Test>, c: Completed, eval: Evaluation)
    requires forall k :: 0 <= k < |pending| ==> pending[k].requirements == []
    ensures RunPass(pending, c, eval).ran == pending
    ensures RunPass(pending, c, eval).kept == []
    decreases |pending|
  {
    if pending != [] {
      var r := eval(pending[0]);
      assert forall k :: 1 <= k < |pending| ==> pending[k] == pending[1..][k - 1];
      AllRunnablePass(pending[1..], c[r.testId := r], eval);
    }
  }

  /** A result recorded earlier in the same pass counts: a test listed after
      its passing prerequisite runs in the same, single pass. */
  lemma SamePassChain(a: Test, b: Test, eval: Evaluation)
    requires a.requirements == [] && b.requirements == [a.id]
    requires KeepsIds(eval) && eval(a).passed
    ensures RunAll([a, b], eval) == Plan([a, b], [], 1)
  {
    var ra, rb := eval(a), eval(b);
    var c1: Completed := map[a.id := ra];
    var c2 := c1[b.id := rb];
    assert ra.testId == a.id && rb.testId == b.id;
    assert [b][1..] == [] && [a, b][1..] == [b];
    assert RunPass([], c2, eval) == PassOutcome([], [], c2);
    assert CanRun(b, c1);
    assert RunPass([b], c1, eval) == PassOutcome([b], [], c2);
    assert RunPass([a, b], map[], eval) == PassOutcome([a, b], [], c2);
    assert Schedule([], c2, eval, 1, 4) == Plan([], [], 0);
    assert [a, b] + [] == [a, b];
  }

  /** Listed before its prerequisite, the same test waits for the next pass. */
  lemma PrerequisiteListedLater(a: Test, b: Test, eval: Evaluation)
    requires a.requirements == [] && b.requirements == [a.id]
    requires KeepsIds(eval) && eval(a).passed
    ensures RunAll([b, a], eval) == Plan([a, b], [], 2)
  {
    var ra, rb := eval(a), eval(b);
    var c1: Completed := map[a.id := ra];
    var c2 := c1[b.id := rb];
    assert ra.testId == a.id && rb.testId == b.id;
    assert [a][1..] == [] && [b][1..] == [] && [b, a][1..] == [a];
    assert RunPass([], c1, eval) == PassOutcome([], [], c1);
    assert RunPass([a], map[], eval) == PassOutcome([a], [], c1);
    assert b.requirements[0] == a.id;
    assert !CanRun(b, map[]);
    assert RunPass([b, a], map[], eval) == PassOutcome([a], [b], c1);
    assert RunPass([], c2, eval) == PassOutcome([], [], c2);
    assert CanRun(b, c1);
    assert RunPass([b], c1, eval) == PassOutcome([b], [], c2);
    assert Schedule([], c2, eval, 2, 4) == Plan([], [], 0);
    assert Schedule([b], c1, eval, 1, 4) == Plan([b], [], 1);
    assert [a] + [b] == [a, b] && [b] + [] == [b];
  }

  /** A prerequisite that fails leaves its dependant pending until a pass
      runs nothing and records it as unresolvable. */
  lemma FailedPrerequisiteStalls(a: Test, b: Test, eval: Evaluation)
    requires a.requirements == [] && b.requirements == [a.id]
    requires KeepsIds(eval) && !eval(a).passed
    ensures RunAll([a, b], eval) == Plan([a], [b], 2)
  {
    var ra := eval(a);
    var c1: Completed := map[a.id := ra];
    assert ra.testId == a.id;
    assert [b][1..] == [] && [a, b][1..] == [b];
    assert RunPass([], c1, eval) == PassOutcome([], [], c1);
    assert b.requirements[0] == a.id;
    assert !CanRun(b, c1);
    assert RunPass([b], c1, eval) == PassOutcome([], [b], c1);
    assert RunPass([a, b], map[], eval) == PassOutcome([a], [b], c1);
    assert Schedule([b], c1, eval, 1, 4) == Plan([], [b], 1);
    assert [a] + [] == [a];
  }
}
