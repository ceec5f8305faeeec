/**
 * The `ProxyServer` facade of proxy.js: it builds a proxy with its own
 * Recorder, registers rules, filters and tests on the request handler and
 * the recorder, and starts and stops the proxy, running the shutdown at most
 * once per start.
 *
 * The system proxy settings, the network adaptor session, the timers
 * (`duration`, the completion check's interval) and `process.exit` are not
 * modelled as code: their readings are parameters, and a timer's callback is
 * a method the caller invokes.
 */
module ProxyFacade {
  import opened JsValues
  import opened JsObjects
  import opened Log
  import opened RuleDispatch
  import opened Records
  import opened TestEngine
  import opened Recording
  import opened Proxy

  const DefaultHost := "127.0.0.1"

  /** The configuration the facade gives the core: its port and its recorder. */
  function FacadeConfig(port: Value): ProxyConfig
  {
    ProxyConfig(port, Undefined, Undefined, Obj(0), None, Undefined, Undefined)
  }

  /** A test definition as `addTests` receives it. A `testCount` of 0 stands
      for an absent or otherwise falsy count. */
  datatype TestInput = TestInput(test: Record -> Value, testCount: int)

  /** The registered form of a definition: a falsy count becomes 1, nothing
      has run yet, and the test is enabled. */
  function Registered(d: TestInput): TestDef
  {
    TestDef(d.test, if d.testCount == 0 then 1 else d.testCount, 0, true)
  }

  /** `recorder.tests` after registering `defs` in key order. */
  function AddedTests(tests: Entries<TestDef>, defs: Entries<TestInput>): Entries<TestDef>
  {
    if defs == [] then tests
    else
      var last := defs[|defs| - 1];
      Put(AddedTests(tests, defs[..|defs| - 1]), last.0, Registered(last.1))
  }

  /** After `addTests(defs)` each defined name holds the registered form of
      its definition, with the defaults applied; every other test is as it
      was. */
  lemma {:induction false} GetAddedTests(tests: Entries<TestDef>, defs: Entries<TestInput>, k: string)
    requires UniqueKeys(defs)
    ensures Has(defs, k) ==>
      var d := Get(defs, k).value;
      Get(AddedTests(tests, defs), k) == Some(TestDef(d.test, if d.testCount == 0 then 1 else d.testCount, 0, true))
    ensures !Has(defs, k) ==> Get(AddedTests(tests, defs), k) == Get(tests, k)
  {
    if defs != [] {
      var n := |defs|;
      var init := defs[..n - 1];
      var last := defs[n - 1];
      assert defs == init + [last];
      GetAddedTests(tests, init, k);
      GetPut(AddedTests(tests, init), last.0, Registered(last.1), k);
      GetAppend(init, [last], k);
      HasIndex(init, last.0);
      HasIndex(defs, k);
      HasIndex(init, k);
      if k == last.0 {
        assert !Has(init, k);
      }
    }
  }

  lemma {:induction false} AddedTestsUnique(tests: Entries<TestDef>, defs: Entries<TestInput>)
    requires UniqueKeys(tests)
    ensures UniqueKeys(AddedTests(tests, defs))
  {
    if defs != [] {
      var last := defs[|defs| - 1];
      AddedTestsUnique(tests, defs[..|defs| - 1]);
      PutUnique(AddedTests(tests, defs[..|defs| - 1]), last.0, Registered(last.1));
    }
  }

  /** A freshly registered test with a non-negative count runs on the next
      record the proxy stores. */
  lemma FreshTestRunsNext(tests: Entries<TestDef>, defs: Entries<TestInput>, k: string, record: Record, first: nat)
    requires UniqueKeys(tests) && UniqueKeys(defs) && Has(defs, k) && Get(defs, k).value.testCount >= 0
    ensures HasResult(Runs(AddedTests(tests, defs), record, first), k, Truthy(Get(defs, k).value.test(record)))
  {
    GetAddedTests(tests, defs, k);
    AddedTestsUnique(tests, defs);
    RunHasResult(AddedTests(tests, defs), record, first, k);
  }

  /** With every test disabled a record runs no test at all. */
  lemma {:induction false} NoneEnabledRunsNothing(tests: Entries<TestDef>, record: Record, first: nat)
    requires forall i :: 0 <= i < |tests| ==> !tests[i].1.enabled
    ensures Runs(tests, record, first) == []
  {
    if tests != [] {
      NoneEnabledRunsNothing(tests[..|tests| - 1], record, first);
    }
  }

  /** What `start(options)` reads from its options object. */
  datatype StartOptions = StartOptions(enableTests: Value, endAfterTestsComplete: Value, duration: Value)

  /** `new ProxyServer(port)`: a recorder over `cacheDir`, then the core,
      whose constructor throws for an old Node or a falsy port. */
  method NewProxyServer(port: Value, env: Environment, cacheDir: seq<string>, rootUuid: nat, logger: Logger)
    returns (r: Completion<ProxyServer>)
    requires ValidCacheDir(cacheDir)
    modifies logger
    ensures r.Throw? <==> NodeTooOld(env) || !Truthy(port)
    ensures r.Throw? ==> r.error == Error(if NodeTooOld(env) then NodeVersionMessage else PortMessage)
    ensures r.Normal? ==>
      var ps := r.value;
      && fresh(ps) && fresh(ps.core) && fresh(ps.core.handler) && fresh(ps.core.recorder)
      && ps.Valid() && ps.port == port && ps.host == DefaultHost && !ps.stopping
      && ps.core.status == Init && !ps.core.listening
      && ps.core.recorder.filterFunctions == None && ps.core.recorder.tests == []
      && ps.core.handler.rulesOnRequest == [] && ps.core.handler.rulesOnResponse == []
      && ps.core.handler.rulesOnForceHttps == [] && ps.core.handler.rulesOnError == []
      && ps.core.handler.rulesOnConnectError == [] && !ps.core.handler.forceProxyHttps
  {
    var recorder := new Recorder(cacheDir, rootUuid);
    var settings := CheckConfig(FacadeConfig(port), env);
    if settings.Throw? {
      return Throw(settings.error);
    }
    assert !settings.value.forceProxyHttps && !settings.value.https;
    var core := new ProxyCore(settings.value, recorder, logger);
    var ps := new ProxyServer(core, port);
    r := Normal(ps);
  }

  class ProxyServer {
    const core: ProxyCore
    const host: string
    const port: Value
    /** The re-entrancy guard of `stop`. */
    var stopping: bool
    var enableTests: Value
    var endAfterTestsComplete: Value
    /** How many completion-check intervals `start` has set up. */
    var completionWatchers: nat
    /** How many times the shutdown sequence has begun. */
    var shutdowns: nat

    ghost predicate Valid()
      reads this, core, core.handler, core.recorder
    {
      core.Valid() && !core.https
    }

    constructor (core: ProxyCore, port: Value)
      requires core.Valid() && !core.https
      ensures Valid() && this.core == core && this.port == port && host == DefaultHost
      ensures !stopping && enableTests == Undefined && endAfterTestsComplete == Undefined
      ensures completionWatchers == 0 && shutdowns == 0
    {
      this.core := core;
      this.port := port;
      host := DefaultHost;
      stopping := false;
      enableTests := Undefined;
      endAfterTestsComplete := Undefined;
      completionWatchers := 0;
      shutdowns := 0;
    }

    /** `enableForceProxyHttps()` (true) and `disableForceProxyHttps()` (false). */
    method SetForceProxyHttps(flag: bool)
      requires Valid()
      modifies core.handler`forceProxyHttps
      ensures Valid() && core.handler.forceProxyHttps == flag
    {
      core.handler.forceProxyHttps := flag;
    }

    /** `throttle(bps)`, passed on to the core. */
    method Throttle(bps: string) returns (r: Completion<()>)
      requires Valid()
      modifies core`throttleRate
      ensures Valid()
      ensures r.Throw? <==> ParseInt(bps).Num? && ParseInt(bps).n < 1
      ensures r.Throw? ==> core.throttleRate == old(core.throttleRate)
      ensures r.Normal? ==> core.throttleRate == Some(ThrottleRate(bps).value)
    {
      r := core.Throttle(bps);
    }

    /** `enableEndTestAfterComplete()` (true) and
        `disableEndTestAfterComplete()` (false). */
    method SetEndAfterTestsComplete(flag: bool)
      requires Valid()
      modifies this`endAfterTestsComplete
      ensures Valid() && endAfterTestsComplete == Bool(flag)
    {
      endAfterTestsComplete := Bool(flag);
    }

    // -------------------------------------------------------------------------
    // Rules

    method AddRuleOnRequest(name: string, rule: RequestRule)
      requires Valid()
      modifies core.handler`rulesOnRequest
      ensures Valid()
      ensures core.handler.rulesOnRequest == Put(old(core.handler.rulesOnRequest), name, rule)
    {
      PutUnique(core.handler.rulesOnRequest, name, rule);
      core.handler.rulesOnRequest := Put(core.handler.rulesOnRequest, name, rule);
    }

    method RemoveRuleOnRequest(name: string)
      requires Valid()
      modifies core.handler`rulesOnRequest
      ensures Valid()
      ensures core.handler.rulesOnRequest == Delete(old(core.handler.rulesOnRequest), name)
    {
      DeleteUnique(core.handler.rulesOnRequest, name);
      core.handler.rulesOnRequest := Delete(core.handler.rulesOnRequest, name);
    }

    method AddRuleOnResponse(name: string, rule: ResponseRule)
      requires Valid()
      modifies core.handler`rulesOnResponse
      ensures Valid()
      ensures core.handler.rulesOnResponse == Put(old(core.handler.rulesOnResponse), name, rule)
    {
      PutUnique(core.handler.rulesOnResponse, name, rule);
      core.handler.rulesOnResponse := Put(core.handler.rulesOnResponse, name, rule);
    }

    method RemoveRuleOnResponse(name: string)
      requires Valid()
      modifies core.handler`rulesOnResponse
      ensures Valid()
      ensures core.handler.rulesOnResponse == Delete(old(core.handler.rulesOnResponse), name)
    {
      DeleteUnique(core.handler.rulesOnResponse, name);
      core.handler.rulesOnResponse := Delete(core.handler.rulesOnResponse, name);
    }

    method AddRuleOnForceHttpsBeforeRequest(name: string, rule: RequestRule)
      requires Valid()
      modifies core.handler`rulesOnForceHttps
      ensures Valid()
      ensures core.handler.rulesOnForceHttps == Put(old(core.handler.rulesOnForceHttps), name, rule)
    {
      PutUnique(core.handler.rulesOnForceHttps, name, rule);
      core.handler.rulesOnForceHttps := Put(core.handler.rulesOnForceHttps, name, rule);
    }

    method RemoveRuleForceHttpsBeforeRequest(name: string)
      requires Valid()
      modifies core.handler`rulesOnForceHttps
      ensures Valid()
      ensures core.handler.rulesOnForceHttps == Delete(old(core.handler.rulesOnForceHttps), name)
    {
      DeleteUnique(core.handler.rulesOnForceHttps, name);
      core.handler.rulesOnForceHttps := Delete(core.handler.rulesOnForceHttps, name);
    }

    method AddRuleOnError(name: string, rule: ErrorRule)
      requires Valid()
      modifies core.handler`rulesOnError
      ensures Valid()
      ensures core.handler.rulesOnError == Put(old(core.handler.rulesOnError), name, rule)
    {
      PutUnique(core.handler.rulesOnError, name, rule);
      core.handler.rulesOnError := Put(core.handler.rulesOnError, name, rule);
    }

    method RemoveRuleOnError(name: string)
      requires Valid()
      modifies core.handler`rulesOnError
      ensures Valid()
      ensures core.handler.rulesOnError == Delete(old(core.handler.rulesOnError), name)
    {
      DeleteUnique(core.handler.rulesOnError, name);
      core.handler.rulesOnError := Delete(core.handler.rulesOnError, name);
    }

    method AddRuleOnConnectError(name: string, rule: ErrorRule)
      requires Valid()
      modifies core.handler`rulesOnConnectError
      ensures Valid()
      ensures core.handler.rulesOnConnectError == Put(old(core.handler.rulesOnConnectError), name, rule)
    {
      PutUnique(core.handler.rulesOnConnectError, name, rule);
      core.handler.rulesOnConnectError := Put(core.handler.rulesOnConnectError, name, rule);
    }

    method RemoveRuleOnConnectError(name: string)
      requires Valid()
      modifies core.handler`rulesOnConnectError
      ensures Valid()
      ensures core.handler.rulesOnConnectError == Delete(old(core.handler.rulesOnConnectError), name)
    {
      DeleteUnique(core.handler.rulesOnConnectError, name);
      core.handler.rulesOnConnectError := Delete(core.handler.rulesOnConnectError, name);
    }

    // -------------------------------------------------------------------------
    // Filters

    /** `addFilter(name, f)`: the recorder's filter object starts as `null`,
        and assigning a property of `null` throws. */
    method AddFilter(name: string, filter: Filter) returns (r: Completion<()>)
      requires Valid()
      modifies core.recorder`filterFunctions
      ensures Valid()
      ensures r.Throw? <==> old(core.recorder.filterFunctions).None?
      ensures r.Throw? ==> r.error == TypeError && core.recorder.filterFunctions == None
      ensures r.Normal? ==>
        core.recorder.filterFunctions == Some(Put(old(core.recorder.filterFunctions).value, name, filter))
    {
      if core.recorder.filterFunctions.None? {
        return Throw(TypeError);
      }
      PutUnique(core.recorder.filterFunctions.value, name, filter);
      core.recorder.filterFunctions := Some(Put(core.recorder.filterFunctions.value, name, filter));
      r := Normal(());
    }

    /** `removeFilter(name)`: deleting a property of `null` throws too. */
    method RemoveFilter(name: string) returns (r: Completion<()>)
      requires Valid()
      modifies core.recorder`filterFunctions
      ensures Valid()
      ensures r.Throw? <==> old(core.recorder.filterFunctions).None?
      ensures r.Throw? ==> r.error == TypeError && core.recorder.filterFunctions == None
      ensures r.Normal? ==>
        core.recorder.filterFunctions == Some(Delete(old(core.recorder.filterFunctions).value, name))
    {
      if core.recorder.filterFunctions.None? {
        return Throw(TypeError);
      }
      DeleteUnique(core.recorder.filterFunctions.value, name);
      core.recorder.filterFunctions := Some(Delete(core.recorder.filterFunctions.value, name));
      r := Normal(());
    }

    /** `removeAllFilters()` replaces the filter object by `{}`. */
    method RemoveAllFilters()
      requires Valid()
      modifies core.recorder`filterFunctions
      ensures Valid() && core.recorder.filterFunctions == Some([])
    {
      core.recorder.filterFunctions := Some([]);
    }

    // -------------------------------------------------------------------------
    // Tests

    /** `addTests(defs)`, an undefined argument being `{}`: each definition
        is registered under its name, in key order. */
    method AddTests(defs: Entries<TestInput>)
      requires Valid() && UniqueKeys(defs)
      modifies core.recorder`tests
      ensures Valid()
      ensures core.recorder.tests == AddedTests(old(core.recorder.tests), defs)
      ensures defs == [] ==> core.recorder.tests == old(core.recorder.tests)
    {
      var i := 0;
      while i < |defs|
        invariant 0 <= i <= |defs|
        invariant core.recorder.tests == AddedTests(old(core.recorder.tests), defs[..i])
        invariant Valid()
      {
        assert defs[..i + 1][..i] == defs[..i];
        PutUnique(core.recorder.tests, defs[i].0, Registered(defs[i].1));
        core.recorder.tests := Put(core.recorder.tests, defs[i].0, Registered(defs[i].1));
        i := i + 1;
      }
      assert defs[..i] == defs;
    }

    /** `enableTest(name)` (flag true) and `disableTest(name)` (flag false):
        only the test's `enabled` changes; for a name that is not registered
        `tests[name]` is undefined and setting its property throws. */
    method SetTestEnabled(name: string, flag: bool) returns (r: Completion<()>)
      requires Valid()
      modifies core.recorder`tests
      ensures Valid()
      ensures r.Throw? <==> !Has(old(core.recorder.tests), name)
      ensures r.Throw? ==> r.error == TypeError && core.recorder.tests == old(core.recorder.tests)
      ensures Keys(core.recorder.tests) == Keys(old(core.recorder.tests))
      ensures forall k ::
                Get(core.recorder.tests, k) ==
                  if k == name && Has(old(core.recorder.tests), name)
                  then Some(Get(old(core.recorder.tests), name).value.(enabled := flag))
                  else Get(old(core.recorder.tests), k)
    {
      if !Has(core.recorder.tests, name) {
        return Throw(TypeError);
      }
      var t := Get(core.recorder.tests, name).value;
      PutUnique(core.recorder.tests, name, t.(enabled := flag));
      KeysPut(core.recorder.tests, name, t.(enabled := flag));
      forall k
        ensures Get(Put(core.recorder.tests, name, t.(enabled := flag)), k) ==
          if k == name then Some(t.(enabled := flag)) else Get(core.recorder.tests, k)
      {
        GetPut(core.recorder.tests, name, t.(enabled := flag), k);
      }
      core.recorder.tests := Put(core.recorder.tests, name, t.(enabled := flag));
      r := Normal(());
    }

    /** `enableAllTests()` (flag true) and `disableAllTests()` (flag false):
        every test keeps its place and changes only `enabled`. */
    method SetAllTestsEnabled(flag: bool)
      requires Valid()
      modifies core.recorder`tests
      ensures Valid()
      ensures |core.recorder.tests| == |old(core.recorder.tests)|
      ensures forall i :: 0 <= i < |core.recorder.tests| ==>
        core.recorder.tests[i] == (old(core.recorder.tests)[i].0, old(core.recorder.tests)[i].1.(enabled := flag))
    {
      ghost var tests0 := core.recorder.tests;
      var i := 0;
      while i < |core.recorder.tests|
        invariant 0 <= i <= |core.recorder.tests| == |tests0|
        invariant forall j :: 0 <= j < i ==> core.recorder.tests[j] == (tests0[j].0, tests0[j].1.(enabled := flag))
        invariant forall j :: i <= j < |tests0| ==> core.recorder.tests[j] == tests0[j]
        invariant Valid()
      {
        var entry := core.recorder.tests[i];
        SameKeysUnique(core.recorder.tests, core.recorder.tests[i := (entry.0, entry.1.(enabled := flag))]);
        core.recorder.tests := core.recorder.tests[i := (entry.0, entry.1.(enabled := flag))];
        i := i + 1;
      }
    }

    // -------------------------------------------------------------------------
    // Start and stop

    /** `start(options)`. The guard of `stop` is reset. The checks for an
        empty filter or test object compare with a fresh `{}` and are never
        true, so a completion check is set up whenever
        `endAfterTestsComplete` is truthy. The core is started only when the
        system proxy setting reads as enabled (`systemProxyOn`). */
    method Start(options: StartOptions, systemProxyOn: bool) returns (outcome: Option<Settled>)
      requires Valid()
      modifies this`stopping, this`enableTests, this`endAfterTestsComplete, this`completionWatchers
      modifies core`socketIndex, core`socketPool, core`status, core`listening, core`events
      ensures Valid()
      ensures !stopping && enableTests == options.enableTests && endAfterTestsComplete == options.endAfterTestsComplete
      ensures completionWatchers == old(completionWatchers) + if Truthy(options.endAfterTestsComplete) then 1 else 0
      ensures outcome.Some? <==> systemProxyOn
      ensures outcome.None? ==>
        && core.status == old(core.status) && core.listening == old(core.listening)
        && core.socketIndex == old(core.socketIndex) && core.socketPool == old(core.socketPool)
        && core.events == old(core.events)
      ensures outcome.Some? ==>
        && core.socketIndex == 0 && core.socketPool == []
        && (outcome.value.Resolved? <==> old(core.status) == Init)
        && (outcome.value.Resolved? ==> core.status == Ready && core.listening)
        && (outcome.value.Rejected? <==> !outcome.value.Resolved?)
        && (outcome.value.Rejected? ==> core.status == old(core.status) && core.events == old(core.events))
    {
      stopping := false;
      enableTests := options.enableTests;
      endAfterTestsComplete := options.endAfterTestsComplete;
      if Truthy(endAfterTestsComplete) {
        completionWatchers := completionWatchers + 1;
      }
      if systemProxyOn {
        var started := core.Start(None, false);
        outcome := Some(started);
      } else {
        outcome := None;
      }
    }

    /** `stop()`: the first call after a start closes the proxy, which then
        clears the recorder's cache unless the listener failed to close;
        later calls do nothing. */
    method Stop(closeError: Option<JsError>)
      requires Valid()
      modifies this`stopping, this`shutdowns, core`actions, core`status, core`listening, core.recorder`files
      ensures Valid() && stopping
      ensures old(stopping) ==>
        && shutdowns == old(shutdowns) && core.actions == old(core.actions)
        && core.status == old(core.status) && core.listening == old(core.listening)
        && core.recorder.files == old(core.recorder.files)
      ensures !old(stopping) ==> shutdowns == old(shutdowns) + 1
      ensures !old(stopping) && old(core.listening) ==>
        core.actions == old(core.actions) + ShutdownActions(core.handler.conns, core.handler.cltSockets, core.socketPool)
      ensures !old(stopping) && (!old(core.listening) || closeError.None?) ==> core.recorder.files == map[]
      ensures !old(stopping) && old(core.listening) && closeError.None? ==> core.status == Closed && !core.listening
      ensures !old(stopping) && old(core.listening) && closeError.Some? ==>
        && core.recorder.files == old(core.recorder.files)
        && core.status == old(core.status) && core.listening
      ensures !old(stopping) && !old(core.listening) ==>
        core.actions == old(core.actions) && core.status == old(core.status) && !core.listening
    {
      if !stopping {
        stopping := true;
        shutdowns := shutdowns + 1;
        var closed := core.CloseAndClearCache(closeError);
      }
    }

    /** One tick of the completion check: once every test has been retired
        the proxy is stopped. */
    method CompletionTick(closeError: Option<JsError>)
      requires Valid() && completionWatchers > 0
      modifies this`stopping, this`shutdowns, core`actions, core`status, core`listening, core.recorder`files
      ensures Valid()
      ensures old(core.recorder.tests) != [] ==>
        && stopping == old(stopping) && shutdowns == old(shutdowns)
        && core.status == old(core.status) && core.listening == old(core.listening)
        && core.actions == old(core.actions) && core.recorder.files == old(core.recorder.files)
      ensures old(core.recorder.tests) == [] ==> stopping && shutdowns == old(shutdowns) + (if old(stopping) then 0 else 1)
    {
      if |core.recorder.tests| == 0 {
        Stop(closeError);
      }
    }
  }

  /** However many times `stop` is called after a start, the proxy is shut
      down once. */
  method StopTwice(ps: ProxyServer, options: StartOptions, first: Option<JsError>, second: Option<JsError>)
    requires ps.Valid()
    modifies ps, ps.core, ps.core.recorder`files
    ensures ps.shutdowns == old(ps.shutdowns) + 1
  {
    var _ := ps.Start(options, false);
    ps.Stop(first);
    ps.Stop(second);
  }
}
