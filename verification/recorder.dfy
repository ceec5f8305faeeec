/**
 * The Recorder of lib/recorder.js: it numbers intercepted exchanges, stores
 * their records, writes response bodies and WebSocket frame logs into its
 * cache directory, reports updates, and runs the registered tests on each
 * stored record.
 *
 * The nedb database is a map from `_id` to record, the cache directory a map
 * from path to file contents, and the calls the Recorder makes on its
 * collaborators (database writes, file writes and appends, emitted events)
 * are kept in order in `actions`. The database is taken to be loaded, and
 * every database command and file write takes effect at the call, in call
 * order.
 */
module Recording {
  import opened JsValues
  import opened JsObjects
  import opened PosixPath
  import opened Records
  import opened CacheFiles
  import opened TestEngine

  type Filter = Record -> Value

  /** A call the Recorder makes on the database, the file system or its
      listeners. */
  datatype Action =
    | DbInsert(record: Record)
    | DbUpdate(id: int, record: Record)
    | WriteBody(path: string)
    | AppendWsMessage(path: string)
    | EmitUpdate(record: Record)
    | EmitLatestWsMessage(id: int, message: string)

  /** What `getBody` passes to its callback: '' for a sentinel id, the cache
      path error, the file access error, or the file's contents. */
  datatype BodyAnswer = NoBody | Failed(message: string) | FileMissing | Body(content: string)

  /** What `getDecodedWsMessage` passes to its callback: an empty array in the
      error position for a sentinel id, the cache path error, the file access
      error, or the text of the JSON array it parses. */
  datatype WsAnswer = EmptyArrayAsError | WsFailed(message: string) | WsFileMissing | Frames(text: string)

  predicate ValidCacheDir(cacheDir: seq<string>)
  {
    |cacheDir| >= 1 && AllNames(cacheDir)
  }

  // ---------------------------------------------------------------------------
  // Body files

  /** The body file of record `id` in the cache directory. */
  function BodyFile(cacheDir: seq<string>, id: int): string
  {
    Render(cacheDir) + "/" + BodyFileName(id)
  }

  /** The frame log of connection record `id` in the cache directory. */
  function WsLogFile(cacheDir: seq<string>, id: int): string
  {
    Render(cacheDir) + "/" + WsMessageFileName(id)
  }

  /** The cache path check accepts the body file of every record. */
  lemma BodyFileAccepted(cacheDir: seq<string>, id: int)
    requires ValidCacheDir(cacheDir)
    ensures CacheFile(cacheDir, BodyFileName(id)) == Path(BodyFile(cacheDir, id))
  {
    RecorderFileNames(id);
    BothAcceptNames(cacheDir, BodyFileName(id));
  }

  /** The cache path check accepts the frame log of every record. */
  lemma WsLogFileAccepted(cacheDir: seq<string>, id: int)
    requires ValidCacheDir(cacheDir)
    ensures CacheFile(cacheDir, WsMessageFileName(id)) == Path(WsLogFile(cacheDir, id))
  {
    RecorderFileNames(id);
    BothAcceptNames(cacheDir, WsMessageFileName(id));
  }

  /** Where `updateRecordBody(id, info)` writes and what: nothing for the
      sentinel ids -1 and 0 or an undefined body, otherwise the body into the
      record's body file. */
  function BodyTarget(cacheDir: seq<string>, id: int, info: Info): Option<(string, string)>
  {
    if id == -1 || id == 0 || info.resBody.None? then None
    else Some((BodyFile(cacheDir, id), info.resBody.value))
  }

  function WriteBodyTo(files: map<string, string>, t: Option<(string, string)>): map<string, string>
  {
    if t.None? then files else files[t.value.0 := t.value.1]
  }

  /** What `getBody(id, cb)` answers: nothing for a negative id, otherwise
      the body file's contents or the access error. */
  function BodyOf(cacheDir: seq<string>, files: map<string, string>, id: int): BodyAnswer
  {
    if id < 0 then NoBody
    else if BodyFile(cacheDir, id) in files then Body(files[BodyFile(cacheDir, id)])
    else FileMissing
  }

  /** A body written by `updateRecordBody` is what `getBody` reads back. */
  lemma WrittenBodyReadsBack(cacheDir: seq<string>, files: map<string, string>, id: int, info: Info)
    requires id != -1 && id != 0 && info.resBody.Some?
    ensures id > 0 ==> BodyOf(cacheDir, WriteBodyTo(files, BodyTarget(cacheDir, id, info)), id) == Body(info.resBody.value)
    ensures id < 0 ==> BodyOf(cacheDir, WriteBodyTo(files, BodyTarget(cacheDir, id, info)), id) == NoBody
  {
  }

  // ---------------------------------------------------------------------------
  // Frame logs

  /** What `getDecodedWsMessage(id, cb)` answers, up to the JSON parse: an
      empty array as the error for a negative id, otherwise the frame log
      read as one JSON array, or the access error. */
  function DecodedWsOf(cacheDir: seq<string>, files: map<string, string>, id: int): WsAnswer
  {
    if id < 0 then EmptyArrayAsError
    else if WsLogFile(cacheDir, id) in files then Frames(ReadFrames(files[WsLogFile(cacheDir, id)]))
    else WsFileMissing
  }

  /** The frame log written by successive `updateRecordWsMessage` calls reads
      back as the frames in order, as one JSON array. */
  lemma FramesReadBack(cacheDir: seq<string>, files: map<string, string>, id: int, frames: seq<string>)
    requires id >= 0 && WsLogFile(cacheDir, id) in files
    requires files[WsLogFile(cacheDir, id)] == FrameLog(frames)
    ensures DecodedWsOf(cacheDir, files, id) == Frames("[" + JoinComma(frames) + "]")
  {
    FrameLogRoundTrip(frames);
  }

  // ---------------------------------------------------------------------------
  // Filter fan-out

  /** The calls of one accepted delivery: the database write, the body write
      when there is one, and the update event. */
  function DeliveryActions(insert: bool, id: int, record: Record, t: Option<(string, string)>): seq<Action>
  {
    [if insert then DbInsert(record) else DbUpdate(id, record)]
    + (if t.Some? then [WriteBody(t.value.0)] else [])
    + [EmitUpdate(record)]
  }

  lemma AppendDelivery(a0: seq<Action>, insert: bool, id: int, record: Record, t: Option<(string, string)>)
    ensures a0 + [if insert then DbInsert(record) else DbUpdate(id, record)]
      + (if t.Some? then [WriteBody(t.value.0)] else []) + [EmitUpdate(record)]
      == a0 + DeliveryActions(insert, id, record, t)
  {
  }

  /** `db.insert` leaves an existing `_id` alone; `db.update({_id: id}, doc)`
      replaces only an existing document. */
  function DbAfter(db: map<int, Record>, insert: bool, id: int, record: Record): map<int, Record>
  {
    if insert then (if id in db then db else db[id := record])
    else (if id in db then db[id := record] else db)
  }

  function Repeat<T>(k: nat, s: seq<T>): (r: seq<T>)
    ensures |r| == k * |s|
  {
    if k == 0 then [] else Repeat(k - 1, s) + s
  }

  /** How many filters accept the record. */
  function CountTruthy(filters: Entries<Filter>, record: Record): (n: nat)
    ensures n <= |filters|
  {
    if filters == [] then 0
    else CountTruthy(filters[..|filters| - 1], record) + (if Truthy(filters[|filters| - 1].1(record)) then 1 else 0)
  }

  /** How many deliveries a record gets: one without a filter map, one per
      accepting filter with one (none for an empty map). */
  function Deliveries(filterFunctions: Option<Entries<Filter>>, record: Record): nat
  {
    if filterFunctions.None? then 1 else CountTruthy(filterFunctions.value, record)
  }

  /** The state after `k` deliveries of the same record, from `db0`,
      `files0`, `actions0` and test state `s0`: writes are idempotent, while
      calls and test rounds accumulate. */
  ghost predicate AfterDeliveries(k: nat, insert: bool, id: int, record: Record, t: Option<(string, string)>,
                            testsAvailable: bool, db0: map<int, Record>, files0: map<string, string>,
                            actions0: seq<Action>, s0: TestState,
                            db: map<int, Record>, files: map<string, string>, actions: seq<Action>, s: TestState)
  {
    && actions == actions0 + Repeat(k, DeliveryActions(insert, id, record, t))
    && db == (if k > 0 then DbAfter(db0, insert, id, record) else db0)
    && files == (if k > 0 then WriteBodyTo(files0, t) else files0)
    && s == Rounds(if testsAvailable then k else 0, s0, record)
  }

  /** One more delivery is the (k+1)-th. */
  lemma DeliveryStep(k: nat, insert: bool, id: int, record: Record, t: Option<(string, string)>,
                     testsAvailable: bool, db0: map<int, Record>, files0: map<string, string>,
                     actions0: seq<Action>, s0: TestState,
                     db: map<int, Record>, files: map<string, string>, actions: seq<Action>, s: TestState)
    requires AfterDeliveries(k, insert, id, record, t, testsAvailable, db0, files0, actions0, s0, db, files, actions, s)
    ensures AfterDeliveries(k + 1, insert, id, record, t, testsAvailable, db0, files0, actions0, s0,
                            DbAfter(db, insert, id, record), WriteBodyTo(files, t),
                            actions + DeliveryActions(insert, id, record, t),
                            if testsAvailable then Round(s, record) else s)
  {
    RepeatAppend(k, DeliveryActions(insert, id, record, t), actions0, actions);
    if k > 0 {
      DbAfterTwice(db0, insert, id, record);
      WriteBodyTwice(files0, t);
    }
  }

  lemma RepeatAppend<T>(k: nat, d: seq<T>, a0: seq<T>, a: seq<T>)
    requires a == a0 + Repeat(k, d)
    ensures a + d == a0 + Repeat(k + 1, d)
  {
    assert a0 + Repeat(k, d) + d == a0 + (Repeat(k, d) + d);
  }

  /** Storing the same record twice stores it once. */
  lemma DbAfterTwice(db: map<int, Record>, insert: bool, id: int, record: Record)
    ensures DbAfter(DbAfter(db, insert, id, record), insert, id, record) == DbAfter(db, insert, id, record)
  {
  }

  /** Writing the same body file twice writes it once. */
  lemma WriteBodyTwice(files: map<string, string>, t: Option<(string, string)>)
    ensures WriteBodyTo(WriteBodyTo(files, t), t) == WriteBodyTo(files, t)
  {
    if t.Some? {
      assert WriteBodyTo(WriteBodyTo(files, t), t) == files[t.value.0 := t.value.1][t.value.0 := t.value.1];
    }
  }

  lemma {:induction false} RepeatCount<T>(k: nat, s: seq<T>, a: T)
    ensures multiset(Repeat(k, s))[a] == k * multiset(s)[a]
  {
    if k > 0 {
      RepeatCount(k - 1, s, a);
      assert Repeat(k, s) == Repeat(k - 1, s) + s;
      assert multiset(Repeat(k, s))[a] == multiset(Repeat(k - 1, s))[a] + multiset(s)[a];
      assert (k - 1) * multiset(s)[a] + multiset(s)[a] == k * multiset(s)[a];
    }
  }

  /** One delivery makes one database write, one update event, and one
      body write exactly when there is a body to write. */
  lemma DeliveryCounts(insert: bool, id: int, record: Record, t: Option<(string, string)>)
    ensures var d := DeliveryActions(insert, id, record, t);
      && multiset(d)[if insert then DbInsert(record) else DbUpdate(id, record)] == 1
      && multiset(d)[EmitUpdate(record)] == 1
      && forall p :: multiset(d)[WriteBody(p)] == if t.Some? && p == t.value.0 then 1 else 0
  {
    var write := if insert then DbInsert(record) else DbUpdate(id, record);
    var d := DeliveryActions(insert, id, record, t);
    if t.Some? {
      assert d == [write] + [WriteBody(t.value.0)] + [EmitUpdate(record)];
      assert multiset(d) == multiset{write} + multiset{WriteBody(t.value.0)} + multiset{EmitUpdate(record)};
    } else {
      assert d == [write] + [EmitUpdate(record)];
      assert multiset(d) == multiset{write} + multiset{EmitUpdate(record)};
    }
  }

  /** `k` deliveries make exactly `k` database writes and `k` update events,
      and `k` body writes when the record has a body to write. */
  lemma FanOutCounts(k: nat, insert: bool, id: int, record: Record, t: Option<(string, string)>)
    ensures var acts := Repeat(k, DeliveryActions(insert, id, record, t));
      var write := if insert then DbInsert(record) else DbUpdate(id, record);
      && multiset(acts)[write] == k
      && multiset(acts)[EmitUpdate(record)] == k
      && (t.Some? ==> multiset(acts)[WriteBody(t.value.0)] == k)
      && (t.None? ==> forall p :: multiset(acts)[WriteBody(p)] == 0)
  {
    var write := if insert then DbInsert(record) else DbUpdate(id, record);
    var d := DeliveryActions(insert, id, record, t);
    DeliveryCounts(insert, id, record, t);
    RepeatCount(k, d, write);
    RepeatCount(k, d, EmitUpdate(record));
    if t.Some? {
      RepeatCount(k, d, WriteBody(t.value.0));
    } else {
      forall p
        ensures multiset(Repeat(k, d))[WriteBody(p)] == 0
      {
        RepeatCount(k, d, WriteBody(p));
      }
    }
  }

  // ---------------------------------------------------------------------------
  // getRecords

  predicate Listed(rs: seq<Record>, k: int)
  {
    exists j :: 0 <= j < |rs| && rs[j].id == k
  }

  lemma ListedAfterAppend(rs: seq<Record>, r: Record, k: int)
    requires Listed(rs, k) || r.id == k
    ensures Listed(rs + [r], k)
  {
    if r.id == k {
      assert (rs + [r])[|rs|].id == k;
    } else {
      var j :| 0 <= j < |rs| && rs[j].id == k;
      assert (rs + [r])[j] == rs[j];
    }
  }

  /** The scan of ids from `start` up to `k` (excluded) has listed, in
      ascending order, exactly the stored records in that range. */
  predicate Scanned(db: map<int, Record>, start: int, k: int, rs: seq<Record>)
  {
    && (forall i, j :: 0 <= i < j < |rs| ==> rs[i].id < rs[j].id)
    && (forall j :: 0 <= j < |rs| ==> rs[j].id in db && db[rs[j].id] == rs[j] && start <= rs[j].id < k)
    && (forall m :: m in db && start <= m < k ==> Listed(rs, m))
  }

  lemma ScanStart(db: map<int, Record>, start: int, k: int)
    requires forall m :: m in db ==> m >= 1
    requires k == if start < 1 then 1 else start
    ensures Scanned(db, start, k, [])
  {
  }

  lemma ScanStep(db: map<int, Record>, start: int, k: int, rs: seq<Record>)
    requires Scanned(db, start, k, rs) && start <= k && (k in db ==> db[k].id == k)
    ensures Scanned(db, start, k + 1, if k in db then rs + [db[k]] else rs)
  {
    if k in db {
      var rs' := rs + [db[k]];
      forall m | m in db && start <= m < k + 1
        ensures Listed(rs', m)
      {
        ListedAfterAppend(rs, db[k], m);
      }
    }
  }

  /** The scan stops at `globalId`, past every stored id, or once `lim`
      records are listed. */
  lemma ScanDone(db: map<int, Record>, start: int, lim: nat, k: int, globalId: int, rs: seq<Record>)
    requires Scanned(db, start, k, rs) && |rs| <= lim && lim >= 1 && start <= k
    requires forall m :: m in db ==> m < globalId
    requires k >= globalId || |rs| == lim
    ensures Window(db, start, lim, rs)
  {
    forall m | m in db && m >= start && !Listed(rs, m)
      ensures |rs| == lim && |rs| > 0 && m > rs[|rs| - 1].id
    {
    }
  }

  /** `rs` is what `find({_id: {$gte: start}}).sort({_id: 1}).limit(lim)`
      yields: records of `db` from `start` on, ascending by id, at most `lim`
      of them, and no id skipped before the last one. */
  predicate Window(db: map<int, Record>, start: int, lim: nat, rs: seq<Record>)
  {
    && |rs| <= lim
    && (forall i, j :: 0 <= i < j < |rs| ==> rs[i].id < rs[j].id)
    && (forall j :: 0 <= j < |rs| ==> rs[j].id in db && db[rs[j].id] == rs[j] && rs[j].id >= start)
    && (forall k :: k in db && k >= start && !Listed(rs, k) ==> |rs| == lim && |rs| > 0 && k > rs[|rs| - 1].id)
  }

  /** `limit || 10`. */
  function EffectiveLimit(limit: nat): (lim: nat)
    ensures lim >= 1
    ensures limit != 0 ==> lim == limit
  {
    if limit == 0 then 10 else limit
  }

  /** `parseInt(typeof idStart === 'number' ? idStart : globalId - limit, 10)`. */
  function WindowStart(idStart: Value, globalId: int, lim: nat): (start: Value)
    ensures start.Num? || start.NaN?
    ensures idStart.Num? ==> start == idStart
    ensures idStart.NaN? ==> start == NaN
    ensures !IsNumber(idStart) ==> start == Num(globalId - lim)
  {
    if IsNumber(idStart) then idStart else Num(globalId - lim)
  }

  // ---------------------------------------------------------------------------

  class Recorder {
    var globalId: int
    var cacheDir: seq<string>
    var db: map<int, Record>
    var files: map<string, string>
    var filterFunctions: Option<Entries<Filter>>
    var tests: Entries<TestDef>
    var report: Report
    var nextUuid: nat
    var actions: seq<Action>

    ghost predicate Valid()
      reads this`globalId, this`cacheDir, this`db, this`tests, this`filterFunctions
    {
      StoreValid() && UniqueKeys(tests)
    }

    /** Ids below `globalId`, each record stored under its own id, a
        canonical cache directory, filters with distinct names. */
    ghost predicate StoreValid()
      reads this`globalId, this`cacheDir, this`db, this`filterFunctions
    {
      && globalId >= 1
      && ValidCacheDir(cacheDir)
      && (forall k :: k in db ==> 1 <= k < globalId && db[k].id == k)
      && (filterFunctions.Some? ==> UniqueKeys(filterFunctions.value))
    }

    /** The cache directory's path. */
    function CachePath(): string
      reads this`cacheDir
    {
      Render(cacheDir)
    }

    function TestStateOf(): TestState
      reads this`tests, this`report, this`nextUuid
    {
      TestState(tests, report, nextUuid)
    }

    /** A new recorder over a fresh cache directory; the root report takes
        the identifier `rootUuid`. */
    constructor (cacheDir: seq<string>, rootUuid: nat)
      requires ValidCacheDir(cacheDir)
      ensures Valid()
      ensures globalId == 1 && this.cacheDir == cacheDir
      ensures db == map[] && files == map[] && filterFunctions == None
      ensures tests == [] && report == EmptyReport && nextUuid == rootUuid + 1 && actions == []
    {
      globalId := 1;
      this.cacheDir := cacheDir;
      db := map[];
      files := map[];
      filterFunctions := None;
      tests := [];
      report := EmptyReport;
      nextUuid := rootUuid + 1;
      actions := [];
    }

    /** `performTestsOnRecord(record)`. */
    method PerformTestsOnRecord(record: Record)
      requires Valid()
      modifies this`tests, this`report, this`nextUuid
      ensures Valid()
      ensures TestStateOf() == Round(old(TestStateOf()), record)
    {
      ghost var s0 := TestStateOf();
      RoundStart(s0, record);
      var suiteUuid := nextUuid;
      nextUuid := nextUuid + 1;
      var suiteTests, suitePasses, suiteFailures := HandleTests(tests, record, suiteUuid + 1, report);
      ghost var s := TestStateOf();
      if |suiteTests| != 0 {
        report := report.(suites := report.suites + [Suite(suiteUuid, record.host, suiteTests, suitePasses, suiteFailures)]);
      }
      RoundFinish(s0, record, s, suiteTests, suitePasses, suiteFailures, TestStateOf());
    }

    /** The `forEach` over the key snapshot taken when the round starts. */
    method HandleTests(snapshot: Entries<TestDef>, record: Record, first: nat, report0: Report)
      returns (suiteTests: seq<TestResult>, suitePasses: seq<nat>, suiteFailures: seq<nat>)
      requires RoundAt(snapshot, 0, record, first, report0, TestStateOf(), [], [], [])
      modifies this`tests, this`report, this`nextUuid
      ensures RoundAt(snapshot, |snapshot|, record, first, report0, TestStateOf(), suiteTests, suitePasses, suiteFailures)
    {
      suiteTests, suitePasses, suiteFailures := [], [], [];
      var i := 0;
      while i < |snapshot|
        invariant RoundAt(snapshot, i, record, first, report0, TestStateOf(), suiteTests, suitePasses, suiteFailures)
      {
        suiteTests, suitePasses, suiteFailures :=
          HandleTest(snapshot, i, record, first, report0, suiteTests, suitePasses, suiteFailures);
        i := i + 1;
      }
    }

    /** The body of the `forEach` over the key snapshot, for its i-th name:
        an enabled test with runs left is run and counted, an exhausted one
        deleted. */
    method HandleTest(snapshot: Entries<TestDef>, i: nat, record: Record, first: nat, report0: Report,
                      suiteTests: seq<TestResult>, suitePasses: seq<nat>, suiteFailures: seq<nat>)
      returns (suiteTests': seq<TestResult>, suitePasses': seq<nat>, suiteFailures': seq<nat>)
      requires i < |snapshot|
      requires RoundAt(snapshot, i, record, first, report0, TestStateOf(), suiteTests, suitePasses, suiteFailures)
      modifies this`tests, this`report, this`nextUuid
      ensures RoundAt(snapshot, i + 1, record, first, report0, TestStateOf(), suiteTests', suitePasses', suiteFailures')
    {
      suiteTests', suitePasses', suiteFailures' := suiteTests, suitePasses, suiteFailures;
      var name := snapshot[i].0;
      RoundCurrent(snapshot, i, record, first, report0, TestStateOf(), suiteTests, suitePasses, suiteFailures);
      var t := Get(tests, name).value;
      var testedCount := t.testedCount;
      var testCount := t.testCount;
      if testedCount < testCount {
        if t.enabled {
          suiteTests', suitePasses', suiteFailures' :=
            RunTest(snapshot, i, record, first, report0, suiteTests, suitePasses, suiteFailures, t);
        } else {
          SkipAdvances(snapshot, i, record, first, report0, TestStateOf(), suiteTests, suitePasses, suiteFailures);
        }
      } else if testedCount == testCount {
        RetireAdvances(snapshot, i, record, first, report0, TestStateOf(), suiteTests, suitePasses, suiteFailures);
        tests := Delete(tests, name);
      } else {
        SkipAdvances(snapshot, i, record, first, report0, TestStateOf(), suiteTests, suitePasses, suiteFailures);
      }
    }

    /** Running the enabled test `t` at position i of the snapshot: its result
        takes the next identifier, is counted as a pass or a failure of the
        suite and of the root report, and the test's counter goes up. */
    method RunTest(snapshot: Entries<TestDef>, i: nat, record: Record, first: nat, report0: Report,
                   suiteTests: seq<TestResult>, suitePasses: seq<nat>, suiteFailures: seq<nat>, t: TestDef)
      returns (suiteTests': seq<TestResult>, suitePasses': seq<nat>, suiteFailures': seq<nat>)
      requires i < |snapshot| && t == snapshot[i].1 && FateOf(t, record).Run?
      requires RoundAt(snapshot, i, record, first, report0, TestStateOf(), suiteTests, suitePasses, suiteFailures)
      modifies this`tests, this`report, this`nextUuid
      ensures RoundAt(snapshot, i + 1, record, first, report0, TestStateOf(), suiteTests', suitePasses', suiteFailures')
    {
      ghost var before := TestStateOf();
      var name := snapshot[i].0;
      suiteTests', suitePasses', suiteFailures' := suiteTests, suitePasses, suiteFailures;
      var passed := Truthy(t.test(record));
      var testUuid := nextUuid;
      nextUuid := nextUuid + 1;
      report := report.(tests := report.tests + [testUuid]);
      if passed {
        suitePasses' := suitePasses + [testUuid];
        report := report.(passes := report.passes + [testUuid]);
        assert suiteFailures + [] == suiteFailures && report.failures + [] == report.failures;
      } else {
        suiteFailures' := suiteFailures + [testUuid];
        report := report.(failures := report.failures + [testUuid]);
        assert suitePasses + [] == suitePasses && report.passes + [] == report.passes;
      }
      suiteTests' := suiteTests + [TestResult(name, testUuid, passed)];
      tests := Put(tests, name, t.(testedCount := t.testedCount + 1));
      RunAdvances(snapshot, i, record, first, report0, before, suiteTests, suitePasses, suiteFailures,
                  TestStateOf(), suiteTests', suitePasses', suiteFailures');
    }

    /** `updateRecordBody(id, info)`: the body goes into the record's body
        file, which the cache path check always accepts. */
    method UpdateRecordBody(id: int, info: Info)
      requires Valid()
      modifies this`files, this`actions
      ensures Valid()
      ensures files == WriteBodyTo(old(files), BodyTarget(cacheDir, id, info))
      ensures var t := BodyTarget(cacheDir, id, info);
        actions == old(actions) + if t.Some? then [WriteBody(t.value.0)] else []
    {
      if id == -1 {
        assert actions + [] == actions;
        return;
      }
      if id == 0 || info.resBody.None? {
        assert actions + [] == actions;
        return;
      }
      BodyFileAccepted(cacheDir, id);
      var r := CacheFile(cacheDir, BodyFileName(id));
      if r.Path? {
        var bodyFile := r.path;
        files := files[bodyFile := info.resBody.value];
        actions := actions + [WriteBody(bodyFile)];
      }
    }

    /** `db.insert(record)` or `db.update({_id: id}, record)`. */
    method StoreRecord(insert: bool, id: int, record: Record)
      requires Valid() && record.id == id && (insert ==> 1 <= id < globalId)
      modifies this`db, this`actions
      ensures Valid()
      ensures db == DbAfter(old(db), insert, id, record)
      ensures actions == old(actions) + [if insert then DbInsert(record) else DbUpdate(id, record)]
    {
      if insert {
        actions := actions + [DbInsert(record)];
        if id !in db {
          db := db[id := record];
        }
      } else {
        actions := actions + [DbUpdate(id, record)];
        if id in db {
          db := db[id := record];
        }
      }
    }

    /** One accepted delivery: the database write, `updateRecordBody`,
        `emitUpdate` with the record, and the tests when any were registered. */
    method Deliver(insert: bool, id: int, record: Record, info: Info, testsAvailable: bool)
      requires Valid() && record.id == id && (insert ==> 1 <= id < globalId)
      modifies this`db, this`files, this`actions, this`tests, this`report, this`nextUuid
      ensures Valid()
      ensures db == DbAfter(old(db), insert, id, record)
      ensures files == WriteBodyTo(old(files), BodyTarget(cacheDir, id, info))
      ensures actions == old(actions) + DeliveryActions(insert, id, record, BodyTarget(cacheDir, id, info))
      ensures TestStateOf() == if testsAvailable then Round(old(TestStateOf()), record) else old(TestStateOf())
    {
      ghost var a0 := actions;
      AppendDelivery(a0, insert, id, record, BodyTarget(cacheDir, id, info));
      StoreRecord(insert, id, record);
      UpdateRecordBody(id, info);
      actions := actions + [EmitUpdate(record)];
      if testsAvailable {
        PerformTestsOnRecord(record);
      }
    }

    /** The filter loop shared by `appendRecord` and `updateRecord`: one
        delivery without a filter map, otherwise one per accepting filter. */
    method FanOut(insert: bool, id: int, record: Record, info: Info)
      requires Valid() && record.id == id && (insert ==> 1 <= id < globalId)
      modifies this`db, this`files, this`actions, this`tests, this`report, this`nextUuid
      ensures Valid()
      ensures AfterDeliveries(Deliveries(filterFunctions, record), insert, id, record, BodyTarget(cacheDir, id, info),
                              |old(tests)| > 0, old(db), old(files), old(actions), old(TestStateOf()),
                              db, files, actions, TestStateOf())
    {
      var testsAvailable := |tests| > 0;
      ghost var t := BodyTarget(cacheDir, id, info);
      ghost var s0 := TestStateOf();
      assert Repeat(0, DeliveryActions(insert, id, record, t)) == [] && actions + [] == actions;
      if filterFunctions.None? {
        DeliveryStep(0, insert, id, record, t, testsAvailable, db, files, actions, s0, db, files, actions, s0);
        Deliver(insert, id, record, info, testsAvailable);
      } else {
        DeliverFiltered(filterFunctions.value, insert, id, record, info, testsAvailable);
      }
    }

    /** The `filterFunctions` branch of the fan-out: one delivery per filter
        that accepts the record, in filter order. */
    method DeliverFiltered(filters: Entries<Filter>, insert: bool, id: int, record: Record, info: Info,
                           testsAvailable: bool)
      requires Valid() && record.id == id && (insert ==> 1 <= id < globalId)
      requires testsAvailable == (|tests| > 0)
      modifies this`db, this`files, this`actions, this`tests, this`report, this`nextUuid
      ensures Valid()
      ensures AfterDeliveries(CountTruthy(filters, record), insert, id, record, BodyTarget(cacheDir, id, info),
                              testsAvailable, old(db), old(files), old(actions), old(TestStateOf()),
                              db, files, actions, TestStateOf())
    {
      ghost var t := BodyTarget(cacheDir, id, info);
      ghost var s0 := TestStateOf();
      assert Repeat(0, DeliveryActions(insert, id, record, t)) == [] && actions + [] == actions;
      var i := 0;
      assert filters[..0] == [];
      while i < |filters|
        invariant 0 <= i <= |filters| && Valid()
        invariant AfterDeliveries(CountTruthy(filters[..i], record), insert, id, record, t, testsAvailable,
                                  old(db), old(files), old(actions), s0, db, files, actions, TestStateOf())
      {
        assert filters[..i + 1][..i] == filters[..i];
        if Truthy(filters[i].1(record)) {
          DeliveryStep(CountTruthy(filters[..i], record), insert, id, record, t, testsAvailable,
                       old(db), old(files), old(actions), s0, db, files, actions, TestStateOf());
          Deliver(insert, id, record, info, testsAvailable);
        }
        i := i + 1;
      }
      assert filters[..|filters|] == filters;
    }

    /** `appendRecord(info)`: the record takes the current `globalId`, which
        then moves on even when normalising the record throws. */
    method AppendRecord(info: Info) returns (r: Completion<int>)
      requires Valid()
      modifies this`globalId, this`db, this`files, this`actions, this`tests, this`report, this`nextUuid
      ensures Valid()
      ensures globalId == old(globalId) + 1
      ensures r.Normal? <==> NormalizeInfo(old(globalId), info).Normal?
      ensures r.Normal? ==> r.value == old(globalId)
      ensures r.Throw? ==>
        (r.error == TypeError && db == old(db) && files == old(files)
         && actions == old(actions) && TestStateOf() == old(TestStateOf()))
      ensures r.Normal? ==>
        var id := old(globalId);
        var record := NormalizeInfo(id, info).value;
        var k := Deliveries(filterFunctions, record);
        var t := BodyTarget(cacheDir, id, info);
        && actions == old(actions) + Repeat(k, DeliveryActions(true, id, record, t))
        && db == (if k > 0 then old(db)[id := record] else old(db))
        && files == (if k > 0 then WriteBodyTo(old(files), t) else old(files))
        && TestStateOf() == Rounds(if |old(tests)| > 0 then k else 0, old(TestStateOf()), record)
    {
      var thisId := globalId;
      globalId := globalId + 1;
      var finalInfo := NormalizeInfo(thisId, info);
      if finalInfo.Throw? {
        return Throw(finalInfo.error);
      }
      FanOut(true, thisId, finalInfo.value, info);
      r := Normal(thisId);
    }

    /** `updateRecord(id, info)`: nothing for a negative id; otherwise the
        stored document with this id, if any, is replaced once per delivery. */
    method UpdateRecord(id: int, info: Info) returns (r: Completion<()>)
      requires Valid()
      modifies this`db, this`files, this`actions, this`tests, this`report, this`nextUuid
      ensures Valid()
      ensures id < 0 ==>
        (r.Normal? && db == old(db) && files == old(files)
         && actions == old(actions) && TestStateOf() == old(TestStateOf()))
      ensures id >= 0 && NormalizeInfo(id, info).Throw? ==>
        (r == Throw(TypeError) && db == old(db) && files == old(files)
         && actions == old(actions) && TestStateOf() == old(TestStateOf()))
      ensures id >= 0 && NormalizeInfo(id, info).Normal? ==>
        var record := NormalizeInfo(id, info).value;
        var k := Deliveries(filterFunctions, record);
        var t := BodyTarget(cacheDir, id, info);
        && r.Normal?
        && actions == old(actions) + Repeat(k, DeliveryActions(false, id, record, t))
        && db == (if k > 0 && id in old(db) then old(db)[id := record] else old(db))
        && files == (if k > 0 then WriteBodyTo(old(files), t) else old(files))
        && TestStateOf() == Rounds(if |old(tests)| > 0 then k else 0, old(TestStateOf()), record)
    {
      if id < 0 {
        return Normal(());
      }
      var finalInfo := NormalizeInfo(id, info);
      if finalInfo.Throw? {
        return Throw(finalInfo.error);
      }
      FanOut(false, id, finalInfo.value, info);
      r := Normal(());
    }

    /** `updateExtInfo(id, extInfo)`: `$set` of `ext` on the stored document,
        then `emitUpdate(id)` re-reads and emits it when it exists. */
    method UpdateExtInfo(id: int, ext: Value)
      requires Valid()
      modifies this`db, this`actions
      ensures Valid()
      ensures id in old(db) ==>
        (db == old(db)[id := old(db)[id].(ext := Some(ext))]
         && actions == old(actions) + [EmitUpdate(db[id])])
      ensures id !in old(db) ==> db == old(db) && actions == old(actions)
    {
      if id in db {
        db := db[id := db[id].(ext := Some(ext))];
      }
      if id in db {
        actions := actions + [EmitUpdate(db[id])];
      }
    }

    /** `updateRecordWsMessage(id, message)`: a negative id is ignored
        entirely; otherwise the frame is appended to the record's frame log
        and announced as the latest message. */
    method UpdateRecordWsMessage(id: int, message: string)
      requires Valid()
      modifies this`files, this`actions
      ensures Valid()
      ensures id < 0 ==> files == old(files) && actions == old(actions)
      ensures id >= 0 ==>
        var f := WsLogFile(cacheDir, id);
        && files == old(files)[f := AppendFrame(if f in old(files) then old(files)[f] else "", message)]
        && actions == old(actions) + [AppendWsMessage(f), EmitLatestWsMessage(id, message)]
    {
      if id < 0 {
        return;
      }
      WsLogFileAccepted(cacheDir, id);
      var r := CacheFile(cacheDir, WsMessageFileName(id));
      if r.Path? {
        var wsMessageFile := r.path;
        var current := if wsMessageFile in files then files[wsMessageFile] else "";
        files := files[wsMessageFile := AppendFrame(current, message)];
        actions := actions + [AppendWsMessage(wsMessageFile)];
      }
      actions := actions + [EmitLatestWsMessage(id, message)];
    }

    /** `getBody(id, cb)`: the cache path check never refuses the body file. */
    function GetBody(id: int): (a: BodyAnswer)
      requires ValidCacheDir(cacheDir)
      reads this`cacheDir, this`files
      ensures a == BodyOf(cacheDir, files, id)
      ensures !a.Failed?
    {
      if id < 0 then NoBody
      else
        BodyFileAccepted(cacheDir, id);
        match CacheFile(cacheDir, BodyFileName(id))
        case Path(bodyFile) => if bodyFile in files then Body(files[bodyFile]) else FileMissing
    }

    /** `getDecodedWsMessage(id, cb)`, up to the JSON parse: the cache path
        check never refuses the frame log. */
    function GetDecodedWsMessage(id: int): (a: WsAnswer)
      requires ValidCacheDir(cacheDir)
      reads this`cacheDir, this`files
      ensures a == DecodedWsOf(cacheDir, files, id)
      ensures !a.WsFailed?
    {
      if id < 0 then EmptyArrayAsError
      else
        WsLogFileAccepted(cacheDir, id);
        match CacheFile(cacheDir, WsMessageFileName(id))
        case Path(wsMessageFile) => if wsMessageFile in files then Frames(ReadFrames(files[wsMessageFile])) else WsFileMissing
    }

    /** `getRecords(idStart, limit, cb)`. */
    method GetRecords(idStart: Value, limit: nat) returns (records: seq<Record>)
      requires Valid()
      ensures var start := WindowStart(idStart, globalId, EffectiveLimit(limit));
        && (start.NaN? ==> records == [])
        && (start.Num? ==> Window(db, start.n, EffectiveLimit(limit), records))
    {
      var lim := EffectiveLimit(limit);
      var start := WindowStart(idStart, globalId, lim);
      records := [];
      if start.NaN? {
        return;
      }
      var k := if start.n < 1 then 1 else start.n;
      ScanStart(db, start.n, k);
      while k < globalId && |records| < lim
        invariant start.n <= k && |records| <= lim
        invariant Scanned(db, start.n, k, records)
        decreases globalId - k
      {
        ScanStep(db, start.n, k, records);
        if k in db {
          records := records + [db[k]];
        }
        k := k + 1;
      }
      ScanDone(db, start.n, lim, k, globalId, records);
    }

    /** `clear()`: the cache directory is emptied. */
    method Clear()
      requires Valid()
      modifies this`files
      ensures Valid()
      ensures files == map[]
    {
      files := map[];
    }
  }
}
