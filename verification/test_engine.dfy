/**
 * The bookkeeping of `performTestsOnRecord`: which registered tests run on a
 * record, how their counters move, when an exhausted test is retired, and
 * what lands in the record's suite and in the root report.
 *
 * Report entries keep only what the bookkeeping decides (title, identifier,
 * pass or fail); Mocha's other report fields, timings and the record's JSON
 * context are not modelled. Identifiers come from a counter standing for
 * `uuid.v4()`.
 */
module TestEngine {
  import opened JsValues
  import opened JsObjects
  import opened Records

  /** A registered test, `recorder.tests[name]`. */
  datatype TestDef = TestDef(test: Record -> Value, testCount: int, testedCount: int, enabled: bool)

  /** One executed test in a suite. */
  datatype TestResult = TestResult(title: string, uuid: nat, passed: bool)

  /** The suite built for one record. */
  datatype Suite = Suite(uuid: nat, host: string, tests: seq<TestResult>, passes: seq<nat>, failures: seq<nat>)

  /** The root suite's data: every test's identifier, the passes, the
      failures, and the record suites that ran something. */
  datatype Report = Report(tests: seq<nat>, passes: seq<nat>, failures: seq<nat>, suites: seq<Suite>)

  const EmptyReport := Report([], [], [], [])

  /** What one round does with one test. */
  datatype Fate = Run(passed: bool) | Skip | Retire

  function FateOf(t: TestDef, record: Record): (f: Fate)
    ensures f.Run? <==> t.testedCount < t.testCount && t.enabled
    ensures f.Retire? <==> t.testedCount == t.testCount
    ensures f.Run? ==> f.passed == Truthy(t.test(record))
  {
    if t.testedCount < t.testCount then
      if t.enabled then Run(Truthy(t.test(record))) else Skip
    else if t.testedCount == t.testCount then Retire
    else Skip
  }

  /** The entry a test leaves in `tests` after the round. */
  function Survivor(name: string, t: TestDef, record: Record): (e: Entries<TestDef>)
    ensures |e| <= 1 && (|e| == 1 ==> e[0].0 == name)
  {
    match FateOf(t, record)
    case Run(_) => [(name, t.(testedCount := t.testedCount + 1))]
    case Skip => [(name, t)]
    case Retire => []
  }

  /** The tests after one round over `tests`, in their order. */
  function Kept(tests: Entries<TestDef>, record: Record): Entries<TestDef>
  {
    if tests == [] then []
    else
      var last := tests[|tests| - 1];
      Kept(tests[..|tests| - 1], record) + Survivor(last.0, last.1, record)
  }

  /** The results of one round; identifiers are handed out from `first` on. */
  function Runs(tests: Entries<TestDef>, record: Record, first: nat): seq<TestResult>
  {
    if tests == [] then []
    else
      var last := tests[|tests| - 1];
      var earlier := Runs(tests[..|tests| - 1], record, first);
      match FateOf(last.1, record)
      case Run(passed) => earlier + [TestResult(last.0, first + |earlier|, passed)]
      case _ => earlier
  }

  function Uuids(runs: seq<TestResult>): (us: seq<nat>)
    ensures |us| == |runs| && forall j :: 0 <= j < |runs| ==> us[j] == runs[j].uuid
  {
    if runs == [] then [] else Uuids(runs[..|runs| - 1]) + [runs[|runs| - 1].uuid]
  }

  function PassUuids(runs: seq<TestResult>): seq<nat>
  {
    if runs == [] then []
    else PassUuids(runs[..|runs| - 1]) + (if runs[|runs| - 1].passed then [runs[|runs| - 1].uuid] else [])
  }

  function FailUuids(runs: seq<TestResult>): seq<nat>
  {
    if runs == [] then []
    else FailUuids(runs[..|runs| - 1]) + (if runs[|runs| - 1].passed then [] else [runs[|runs| - 1].uuid])
  }

  function SuiteOf(uuid: nat, host: string, runs: seq<TestResult>): Suite
  {
    Suite(uuid, host, runs, PassUuids(runs), FailUuids(runs))
  }

  /** The root report after a record's suite: its results are appended to the
      root's lists, and the suite itself only when it ran something. */
  function AddToReport(report: Report, suite: Suite): Report
  {
    Report(
      report.tests + Uuids(suite.tests),
      report.passes + suite.passes,
      report.failures + suite.failures,
      report.suites + if suite.tests != [] then [suite] else [])
  }

  /** Everything a round reads and writes. */
  datatype TestState = TestState(tests: Entries<TestDef>, report: Report, nextUuid: nat)

  /** One `performTestsOnRecord(record)`: the suite takes the next identifier,
      the results the ones after it. */
  function Round(s: TestState, record: Record): (r: TestState)
    ensures r.nextUuid == s.nextUuid + 1 + |Runs(s.tests, record, s.nextUuid + 1)|
  {
    var runs := Runs(s.tests, record, s.nextUuid + 1);
    TestState(
      Kept(s.tests, record),
      AddToReport(s.report, SuiteOf(s.nextUuid, record.host, runs)),
      s.nextUuid + 1 + |runs|)
  }

  function Rounds(n: nat, s: TestState, record: Record): TestState
  {
    if n == 0 then s else Round(Rounds(n - 1, s, record), record)
  }

  // ---------------------------------------------------------------------------
  // Lemmas

  /** What a round leaves under a name that reads `entry` before it: nothing
      for an exhausted test, the counter advanced for a test that runs, the
      test itself otherwise. */
  function AfterRound(entry: Option<TestDef>, record: Record): Option<TestDef>
  {
    match entry
    case None => None
    case Some(t) =>
      match FateOf(t, record)
      case Run(_) => Some(t.(testedCount := t.testedCount + 1))
      case Skip => Some(t)
      case Retire => None
  }

  lemma GetSurvivor(name: string, t: TestDef, record: Record, k: string)
    ensures Get(Survivor(name, t, record), k) == if k == name then AfterRound(Some(t), record) else None
  {
  }

  /** After a round, a test that was exhausted is gone, a test that ran has
      its counter advanced by one, and every other test is unchanged. */
  lemma {:induction false} KeptGet(tests: Entries<TestDef>, record: Record, k: string)
    requires UniqueKeys(tests)
    ensures Get(Kept(tests, record), k) == AfterRound(Get(tests, k), record)
  {
    if tests != [] {
      var n := |tests|;
      var init := tests[..n - 1];
      var last := tests[n - 1];
      assert tests == init + [last];
      assert UniqueKeys(init);
      KeptGet(init, record, k);
      GetAppend(Kept(init, record), Survivor(last.0, last.1, record), k);
      GetAppend(init, [last], k);
      GetSurvivor(last.0, last.1, record, k);
      if k == last.0 {
        HasIndex(init, k);
      }
    }
  }

  lemma KeptUnique(tests: Entries<TestDef>, record: Record)
    requires UniqueKeys(tests)
    ensures UniqueKeys(Kept(tests, record))
  {
    if tests != [] {
      var n := |tests|;
      var init := tests[..n - 1];
      var last := tests[n - 1];
      KeptUnique(init, record);
      KeptGet(init, record, last.0);
      HasIndex(init, last.0);
      var s := Survivor(last.0, last.1, record);
      if s != [] {
        AppendNewUnique(Kept(init, record), s[0].0, s[0].1);
        assert s == [(s[0].0, s[0].1)];
      }
    }
  }

  /** The result comes from a test of `tests` that ran with that outcome. */
  predicate RanIn(tests: Entries<TestDef>, record: Record, r: TestResult)
  {
    exists i :: 0 <= i < |tests| && tests[i].0 == r.title && FateOf(tests[i].1, record) == Run(r.passed)
  }

  /** Some result has this title and outcome. */
  predicate HasResult(runs: seq<TestResult>, title: string, passed: bool)
  {
    exists j :: 0 <= j < |runs| && runs[j].title == title && runs[j].passed == passed
  }

  /** The results of a round: the j-th carries identifier `first + j`, each
      comes from a test that ran with that outcome, and every test that ran
      has a result. */
  lemma {:induction false} RunsFacts(tests: Entries<TestDef>, record: Record, first: nat)
    ensures forall j :: 0 <= j < |Runs(tests, record, first)| ==> Runs(tests, record, first)[j].uuid == first + j
    ensures forall j :: 0 <= j < |Runs(tests, record, first)| ==> RanIn(tests, record, Runs(tests, record, first)[j])
    ensures forall i :: 0 <= i < |tests| && FateOf(tests[i].1, record).Run? ==> HasResult(Runs(tests, record, first), tests[i].0, FateOf(tests[i].1, record).passed)
  {
    if tests != [] {
      var n := |tests|;
      var init := tests[..n - 1];
      RunsFacts(init, record, first);
      var earlier := Runs(init, record, first);
      var runs := Runs(tests, record, first);
      assert earlier <= runs;
      forall j | 0 <= j < |runs|
        ensures RanIn(tests, record, runs[j])
      {
        if j < |earlier| {
          assert runs[j] == earlier[j];
          assert RanIn(init, record, earlier[j]);
          var i :| 0 <= i < |init| && init[i].0 == earlier[j].title && FateOf(init[i].1, record) == Run(earlier[j].passed);
          assert tests[i] == init[i];
        } else {
          assert tests[n - 1].0 == runs[j].title;
        }
      }
      forall i | 0 <= i < |tests| && FateOf(tests[i].1, record).Run?
        ensures HasResult(runs, tests[i].0, FateOf(tests[i].1, record).passed)
      {
        if i < n - 1 {
          assert init[i] == tests[i];
          assert HasResult(earlier, init[i].0, FateOf(init[i].1, record).passed);
          var j :| 0 <= j < |earlier| && earlier[j].title == init[i].0 && earlier[j].passed == FateOf(init[i].1, record).passed;
          assert runs[j] == earlier[j];
        } else {
          assert runs[|runs| - 1].title == tests[i].0;
        }
      }
    }
  }

  /** Every result's identifier is in exactly the list its outcome selects. */
  lemma PassesAndFailures(runs: seq<TestResult>)
    ensures |PassUuids(runs)| + |FailUuids(runs)| == |runs|
    ensures forall j :: 0 <= j < |runs| && runs[j].passed ==> runs[j].uuid in PassUuids(runs)
    ensures forall j :: 0 <= j < |runs| && !runs[j].passed ==> runs[j].uuid in FailUuids(runs)
    ensures forall u :: u in PassUuids(runs) ==> exists j :: 0 <= j < |runs| && runs[j].uuid == u && runs[j].passed
    ensures forall u :: u in FailUuids(runs) ==> exists j :: 0 <= j < |runs| && runs[j].uuid == u && !runs[j].passed
  {
    ListsCount(runs);
    PassList(runs);
    FailList(runs);
  }

  lemma {:induction false} ListsCount(runs: seq<TestResult>)
    ensures |PassUuids(runs)| + |FailUuids(runs)| == |runs|
  {
    if runs != [] {
      ListsCount(runs[..|runs| - 1]);
    }
  }

  lemma {:induction false} PassList(runs: seq<TestResult>)
    ensures forall j :: 0 <= j < |runs| && runs[j].passed ==> runs[j].uuid in PassUuids(runs)
    ensures forall u :: u in PassUuids(runs) ==> exists j :: 0 <= j < |runs| && runs[j].uuid == u && runs[j].passed
  {
    if runs != [] {
      var n := |runs|;
      var init := runs[..n - 1];
      PassList(init);
      assert forall j :: 0 <= j < n - 1 ==> runs[j] == init[j];
      forall u | u in PassUuids(runs)
        ensures exists j :: 0 <= j < n && runs[j].uuid == u && runs[j].passed
      {
        if u in PassUuids(init) {
          var j :| 0 <= j < n - 1 && init[j].uuid == u && init[j].passed;
          assert runs[j] == init[j];
        }
      }
    }
  }

  lemma {:induction false} FailList(runs: seq<TestResult>)
    ensures forall j :: 0 <= j < |runs| && !runs[j].passed ==> runs[j].uuid in FailUuids(runs)
    ensures forall u :: u in FailUuids(runs) ==> exists j :: 0 <= j < |runs| && runs[j].uuid == u && !runs[j].passed
  {
    if runs != [] {
      var n := |runs|;
      var init := runs[..n - 1];
      FailList(init);
      assert forall j :: 0 <= j < n - 1 ==> runs[j] == init[j];
      forall u | u in FailUuids(runs)
        ensures exists j :: 0 <= j < n && runs[j].uuid == u && !runs[j].passed
      {
        if u in FailUuids(init) {
          var j :| 0 <= j < n - 1 && init[j].uuid == u && !init[j].passed;
          assert runs[j] == init[j];
        }
      }
    }
  }

  /** Handling test `t` under `name` turns `current`, where the name reads
      `t`, into `next`: its counter advanced in place when it runs, nothing
      changed when it is skipped, the entry deleted when it is retired. */
  ghost predicate Handled(current: Entries<TestDef>, next: Entries<TestDef>, name: string, t: TestDef, record: Record)
  {
    && Get(current, name) == Some(t)
    && (FateOf(t, record).Run? ==> next == Put(current, name, t.(testedCount := t.testedCount + 1)))
    && (FateOf(t, record).Skip? ==> next == current)
    && (FateOf(t, record).Retire? ==> next == Delete(current, name))
  }

  /** One step of the round's loop over the key snapshot: the test at
      position i is still in place, and handling it turns the tests left by
      the first i steps into those left by the first i + 1. */
  lemma RoundStep(snapshot: Entries<TestDef>, i: nat, record: Record)
    requires UniqueKeys(snapshot) && i < |snapshot|
    ensures Handled(Kept(snapshot[..i], record) + snapshot[i..], Kept(snapshot[..i + 1], record) + snapshot[i + 1..],
                    snapshot[i].0, snapshot[i].1, record)
  {
    var done := Kept(snapshot[..i], record);
    var name := snapshot[i].0;
    var t := snapshot[i].1;
    var rest := snapshot[i + 1..];
    PositionIsFree(snapshot, i, record);
    KeptStep(snapshot, i, record);
    HeadAndRest(snapshot, i);
    HandledBetween(done, name, t, rest, record,
                   Kept(snapshot[..i], record) + snapshot[i..], Kept(snapshot[..i + 1], record) + snapshot[i + 1..]);
  }

  lemma HeadAndRest<V>(e: Entries<V>, i: nat)
    requires i < |e|
    ensures e[i..] == [(e[i].0, e[i].1)] + e[i + 1..]
  {
  }

  lemma HandledBetween(done: Entries<TestDef>, name: string, t: TestDef, rest: Entries<TestDef>, record: Record,
                       current: Entries<TestDef>, next: Entries<TestDef>)
    requires !Has(done, name) && !Has(rest, name)
    requires current == done + ([(name, t)] + rest) && next == done + Survivor(name, t, record) + rest
    ensures Handled(current, next, name, t, record)
  {
    SurvivorInPlace(done, name, t, rest, record);
  }

  /** Handling one test whose key occurs nowhere else, written on the
      sequence around it. */
  lemma SurvivorInPlace(done: Entries<TestDef>, name: string, t: TestDef, rest: Entries<TestDef>, record: Record)
    requires !Has(done, name) && !Has(rest, name)
    ensures Handled(done + ([(name, t)] + rest), done + Survivor(name, t, record) + rest, name, t, record)
  {
    GetAppend(done, [(name, t)] + rest, name);
    var f := FateOf(t, record);
    if f.Run? {
      RunInPlace(done, name, t, rest, record);
    } else if f.Retire? {
      RetireInPlace(done, name, t, rest, record);
    } else {
      assert Survivor(name, t, record) == [(name, t)];
    }
  }

  lemma RunInPlace(done: Entries<TestDef>, name: string, t: TestDef, rest: Entries<TestDef>, record: Record)
    requires !Has(done, name) && FateOf(t, record).Run?
    ensures done + Survivor(name, t, record) + rest == Put(done + ([(name, t)] + rest), name, t.(testedCount := t.testedCount + 1))
  {
    var t' := t.(testedCount := t.testedCount + 1);
    assert Survivor(name, t, record) == [(name, t')];
    PutAfter(done, name, t, rest, t');
  }

  lemma RetireInPlace(done: Entries<TestDef>, name: string, t: TestDef, rest: Entries<TestDef>, record: Record)
    requires !Has(done, name) && !Has(rest, name) && FateOf(t, record).Retire?
    ensures done + Survivor(name, t, record) + rest == Delete(done + ([(name, t)] + rest), name)
  {
    assert Survivor(name, t, record) == [];
    assert done + [] + rest == done + rest;
    DeleteAfter(done, name, t, rest);
  }

  /** The key at position i is neither among the survivors of the earlier
      positions nor among the later positions. */
  lemma PositionIsFree(snapshot: Entries<TestDef>, i: nat, record: Record)
    requires UniqueKeys(snapshot) && i < |snapshot|
    ensures !Has(Kept(snapshot[..i], record), snapshot[i].0)
    ensures !Has(snapshot[i + 1..], snapshot[i].0)
  {
    var name := snapshot[i].0;
    KeptGet(snapshot[..i], record, name);
    HasIndex(snapshot[..i], name);
    HasIndex(snapshot[i + 1..], name);
  }

  lemma KeptStep(snapshot: Entries<TestDef>, i: nat, record: Record)
    requires i < |snapshot|
    ensures Kept(snapshot[..i + 1], record) + snapshot[i + 1..] ==
      Kept(snapshot[..i], record) + Survivor(snapshot[i].0, snapshot[i].1, record) + snapshot[i + 1..]
  {
    assert snapshot[..i + 1][..i] == snapshot[..i];
  }

  lemma RunsStep(snapshot: Entries<TestDef>, i: nat, record: Record, first: nat)
    requires i < |snapshot|
    ensures Runs(snapshot[..i + 1], record, first) ==
      (var earlier := Runs(snapshot[..i], record, first);
       match FateOf(snapshot[i].1, record)
       case Run(passed) => earlier + [TestResult(snapshot[i].0, first + |earlier|, passed)]
       case _ => earlier)
  {
    assert snapshot[..i + 1][..i] == snapshot[..i];
  }

  /** The state of a round over the key snapshot `snapshot` after its first
      `i` names: `s` is the recorder's test state, the suite's results so far
      took identifiers from `first` on, and `report0` is the root report
      before the round. */
  ghost predicate RoundAt(snapshot: Entries<TestDef>, i: nat, record: Record, first: nat, report0: Report,
                          s: TestState, runs: seq<TestResult>, passes: seq<nat>, failures: seq<nat>)
  {
    && TestsAt(snapshot, i, record, s.tests)
    && ResultsAt(snapshot, i, record, first, runs, passes, failures)
    && s.nextUuid == first + |runs|
    && ReportAt(report0, runs, passes, failures, s.report)
  }

  /** The tests after the first i steps: the survivors of the first i
      names, then the untouched rest. */
  ghost predicate TestsAt(snapshot: Entries<TestDef>, i: nat, record: Record, tests: Entries<TestDef>)
  {
    i <= |snapshot| && UniqueKeys(snapshot) && tests == Kept(snapshot[..i], record) + snapshot[i..]
  }

  /** The suite's results and identifier lists after the first i steps. */
  ghost predicate ResultsAt(snapshot: Entries<TestDef>, i: nat, record: Record, first: nat,
                            runs: seq<TestResult>, passes: seq<nat>, failures: seq<nat>)
  {
    i <= |snapshot| && runs == Runs(snapshot[..i], record, first)
    && passes == PassUuids(runs) && failures == FailUuids(runs)
  }

  /** The root report holds the suite's results so far after its own. */
  predicate ReportAt(report0: Report, runs: seq<TestResult>, passes: seq<nat>, failures: seq<nat>, report: Report)
  {
    report == Report(report0.tests + Uuids(runs), report0.passes + passes, report0.failures + failures, report0.suites)
  }

  /** A round starts with every test of the snapshot still to handle, an
      empty suite and the suite's own identifier taken. */
  lemma RoundStart(s0: TestState, record: Record)
    requires UniqueKeys(s0.tests)
    ensures RoundAt(s0.tests, 0, record, s0.nextUuid + 1, s0.report, s0.(nextUuid := s0.nextUuid + 1), [], [], [])
  {
    assert s0.tests[..0] == [] && s0.tests[0..] == s0.tests;
    assert s0.report.tests + [] == s0.report.tests;
    assert s0.report.passes + [] == s0.report.passes;
    assert s0.report.failures + [] == s0.report.failures;
  }

  /** Once every name is handled, adding the suite to the root report when it
      ran something completes `Round`; the tests still have unique names. */
  lemma RoundFinish(s0: TestState, record: Record, s: TestState, runs: seq<TestResult>, passes: seq<nat>, failures: seq<nat>,
                    final: TestState)
    requires RoundAt(s0.tests, |s0.tests|, record, s0.nextUuid + 1, s0.report, s, runs, passes, failures)
    requires final == TestState(
      s.tests,
      s.report.(suites := s.report.suites + if runs != [] then [Suite(s0.nextUuid, record.host, runs, passes, failures)] else []),
      s.nextUuid)
    ensures UniqueKeys(final.tests)
    ensures Round(s0, record) == final
  {
    assert s0.tests[..|s0.tests|] == s0.tests;
    assert s0.tests[|s0.tests|..] == [];
    assert s.tests == Kept(s0.tests, record) + [];
    KeptUnique(s0.tests, record);
  }

  /** The test the i-th step handles is the one of the snapshot, still in
      `tests` under its name. */
  lemma RoundCurrent(snapshot: Entries<TestDef>, i: nat, record: Record, first: nat, report0: Report,
                     s: TestState, runs: seq<TestResult>, passes: seq<nat>, failures: seq<nat>)
    requires i < |snapshot| && RoundAt(snapshot, i, record, first, report0, s, runs, passes, failures)
    ensures Get(s.tests, snapshot[i].0) == Some(snapshot[i].1)
  {
    RoundStep(snapshot, i, record);
  }

  /** The identifier a result adds to the pass list, and to the failure list. */
  function PassOf(r: TestResult): seq<nat>
  {
    if r.passed then [r.uuid] else []
  }

  function FailOf(r: TestResult): seq<nat>
  {
    if r.passed then [] else [r.uuid]
  }

  /** The suite's lists after the result `r`. */
  predicate Appended(runs: seq<TestResult>, passes: seq<nat>, failures: seq<nat>, r: TestResult,
                     runs': seq<TestResult>, passes': seq<nat>, failures': seq<nat>)
  {
    runs' == runs + [r] && passes' == passes + PassOf(r) && failures' == failures + FailOf(r)
  }

  /** Running the i-th test: its counter is advanced in place, its result takes
      the next identifier and is appended to the suite and the root report. */
  lemma RunAdvances(snapshot: Entries<TestDef>, i: nat, record: Record, first: nat, report0: Report,
                    s: TestState, runs: seq<TestResult>, passes: seq<nat>, failures: seq<nat>,
                    s': TestState, runs': seq<TestResult>, passes': seq<nat>, failures': seq<nat>)
    requires i < |snapshot| && RoundAt(snapshot, i, record, first, report0, s, runs, passes, failures)
    requires FateOf(snapshot[i].1, record).Run?
    requires var t := snapshot[i].1;
      var r := TestResult(snapshot[i].0, s.nextUuid, Truthy(t.test(record)));
      && s'.tests == Put(s.tests, snapshot[i].0, t.(testedCount := t.testedCount + 1))
      && s'.nextUuid == s.nextUuid + 1
      && s'.report == Report(s.report.tests + [r.uuid], s.report.passes + PassOf(r), s.report.failures + FailOf(r), s.report.suites)
      && Appended(runs, passes, failures, r, runs', passes', failures')
    ensures RoundAt(snapshot, i + 1, record, first, report0, s', runs', passes', failures')
  {
    var t := snapshot[i].1;
    var r := TestResult(snapshot[i].0, s.nextUuid, Truthy(t.test(record)));
    TestsAfterRun(snapshot, i, record, s.tests, s'.tests);
    ResultsAfterRun(snapshot, i, record, first, runs, passes, failures, r, runs', passes', failures');
    ReportAfterRun(report0, runs, passes, failures, s.report, r, runs', passes', failures', s'.report);
  }

  lemma TestsAfterRun(snapshot: Entries<TestDef>, i: nat, record: Record, tests: Entries<TestDef>, tests': Entries<TestDef>)
    requires i < |snapshot| && TestsAt(snapshot, i, record, tests) && FateOf(snapshot[i].1, record).Run?
    requires tests' == Put(tests, snapshot[i].0, snapshot[i].1.(testedCount := snapshot[i].1.testedCount + 1))
    ensures TestsAt(snapshot, i + 1, record, tests')
  {
    RoundStep(snapshot, i, record);
  }

  lemma ResultsAfterRun(snapshot: Entries<TestDef>, i: nat, record: Record, first: nat,
                        runs: seq<TestResult>, passes: seq<nat>, failures: seq<nat>, r: TestResult,
                        runs': seq<TestResult>, passes': seq<nat>, failures': seq<nat>)
    requires i < |snapshot| && ResultsAt(snapshot, i, record, first, runs, passes, failures)
    requires FateOf(snapshot[i].1, record).Run?
    requires r == TestResult(snapshot[i].0, first + |runs|, Truthy(snapshot[i].1.test(record)))
    requires Appended(runs, passes, failures, r, runs', passes', failures')
    ensures ResultsAt(snapshot, i + 1, record, first, runs', passes', failures')
  {
    RunsStep(snapshot, i, record, first);
    ResultAppended(runs, r);
  }

  lemma ReportAfterRun(report0: Report, runs: seq<TestResult>, passes: seq<nat>, failures: seq<nat>, report: Report,
                       r: TestResult, runs': seq<TestResult>, passes': seq<nat>, failures': seq<nat>, report': Report)
    requires ReportAt(report0, runs, passes, failures, report)
    requires Appended(runs, passes, failures, r, runs', passes', failures')
    requires report' == Report(report.tests + [r.uuid], report.passes + PassOf(r), report.failures + FailOf(r), report.suites)
    ensures ReportAt(report0, runs', passes', failures', report')
  {
    ResultAppended(runs, r);
    assert report0.tests + Uuids(runs) + [r.uuid] == report0.tests + (Uuids(runs) + [r.uuid]);
    assert report0.passes + passes + PassOf(r) == report0.passes + (passes + PassOf(r));
    assert report0.failures + failures + FailOf(r) == report0.failures + (failures + FailOf(r));
  }

  /** Appending a result extends the identifier lists by its identifier. */
  lemma ResultAppended(runs: seq<TestResult>, r: TestResult)
    ensures Uuids(runs + [r]) == Uuids(runs) + [r.uuid]
    ensures PassUuids(runs + [r]) == PassUuids(runs) + (if r.passed then [r.uuid] else [])
    ensures FailUuids(runs + [r]) == FailUuids(runs) + (if r.passed then [] else [r.uuid])
  {
    assert (runs + [r])[..|runs|] == runs;
  }

  lemma ReportAppended(report0: Report, runs: seq<TestResult>, r: TestResult)
    ensures
      var rs := runs + [r];
      var mine := if r.passed then [r.uuid] else [];
      var notMine := if r.passed then [] else [r.uuid];
      && report0.tests + Uuids(runs) + [r.uuid] == report0.tests + Uuids(rs)
      && report0.passes + PassUuids(runs) + mine == report0.passes + PassUuids(rs)
      && report0.failures + FailUuids(runs) + notMine == report0.failures + FailUuids(rs)
  {
    ResultAppended(runs, r);
  }

  /** A disabled test with runs left is passed over. */
  lemma SkipAdvances(snapshot: Entries<TestDef>, i: nat, record: Record, first: nat, report0: Report,
                     s: TestState, runs: seq<TestResult>, passes: seq<nat>, failures: seq<nat>)
    requires i < |snapshot| && RoundAt(snapshot, i, record, first, report0, s, runs, passes, failures)
    requires FateOf(snapshot[i].1, record).Skip?
    ensures RoundAt(snapshot, i + 1, record, first, report0, s, runs, passes, failures)
  {
    RoundStep(snapshot, i, record);
    RunsStep(snapshot, i, record, first);
  }

  /** An exhausted test is deleted, and nothing is recorded. */
  lemma RetireAdvances(snapshot: Entries<TestDef>, i: nat, record: Record, first: nat, report0: Report,
                       s: TestState, runs: seq<TestResult>, passes: seq<nat>, failures: seq<nat>)
    requires i < |snapshot| && RoundAt(snapshot, i, record, first, report0, s, runs, passes, failures)
    requires FateOf(snapshot[i].1, record).Retire?
    ensures RoundAt(snapshot, i + 1, record, first, report0, s.(tests := Delete(s.tests, snapshot[i].0)),
                    runs, passes, failures)
  {
    RoundStep(snapshot, i, record);
    RunsStep(snapshot, i, record, first);
  }

  /** No result of a round carries this title. */
  predicate NoResultFor(runs: seq<TestResult>, title: string)
  {
    forall j :: 0 <= j < |runs| ==> runs[j].title != title
  }

  /** A test that a round passes over or retires gets no result in it. */
  lemma {:induction false} NotRunNoResult(tests: Entries<TestDef>, record: Record, first: nat, name: string)
    requires UniqueKeys(tests)
    requires Get(tests, name).None? || !FateOf(Get(tests, name).value, record).Run?
    ensures NoResultFor(Runs(tests, record, first), name)
  {
    var runs := Runs(tests, record, first);
    RunsFacts(tests, record, first);
    forall j | 0 <= j < |runs|
      ensures runs[j].title != name
    {
      assert RanIn(tests, record, runs[j]);
      var i :| 0 <= i < |tests| && tests[i].0 == runs[j].title && FateOf(tests[i].1, record) == Run(runs[j].passed);
      GetAt(tests, i);
    }
  }

  /** A test that ran gets a result with its outcome. */
  lemma RunHasResult(tests: Entries<TestDef>, record: Record, first: nat, name: string)
    requires UniqueKeys(tests) && Get(tests, name).Some? && FateOf(Get(tests, name).value, record).Run?
    ensures HasResult(Runs(tests, record, first), name, Truthy(Get(tests, name).value.test(record)))
  {
    RunsFacts(tests, record, first);
    HasIndex(tests, name);
    var i :| 0 <= i < |tests| && tests[i].0 == name;
    GetAt(tests, i);
  }

  /** Retirement is lazy: the round on which an enabled test reaches its
      count runs it and keeps it, with `testedCount == testCount`; the round
      on the next record removes it without running it. (`Round` keeps
      `Kept` of the tests and reports `Runs` of them.) */
  lemma LazyRetirement(tests: Entries<TestDef>, name: string, record1: Record, record2: Record, first1: nat, first2: nat)
    requires UniqueKeys(tests) && Get(tests, name).Some?
    requires var t := Get(tests, name).value; t.enabled && t.testedCount + 1 == t.testCount
    ensures var t := Get(tests, name).value;
      var kept := Kept(tests, record1);
      && Get(kept, name) == Some(t.(testedCount := t.testCount))
      && HasResult(Runs(tests, record1, first1), name, Truthy(t.test(record1)))
      && Get(Kept(kept, record2), name) == None
      && NoResultFor(Runs(kept, record2, first2), name)
  {
    var kept := Kept(tests, record1);
    KeptGet(tests, record1, name);
    RunHasResult(tests, record1, first1, name);
    KeptUnique(tests, record1);
    KeptGet(kept, record2, name);
    NotRunNoResult(kept, record2, first2, name);
  }
}
