/**
 * `ProxyCore` of proxy.js: the configuration checks of its constructor, the
 * server status (INIT, then READY after a successful start, CLOSED after a
 * clean close), the pool of accepted sockets, the throttle setting, and the
 * shutdown order of `close`.
 *
 * The HTTP(S) server, the certificate lookup and the listener's close are
 * not modelled as code: `start` and `close` take their outcomes as
 * parameters, and the calls `close` makes on connections, client sockets and
 * pooled sockets are kept in order in `actions`.
 */
module Proxy {
  import opened JsValues
  import opened JsObjects
  import opened Log
  import opened RuleDispatch
  import opened Recording

  const NodeVersionMessage := "node.js >= v4.x is required for ezproxy"
  const RootCAMessage := "root CA not found. Please run `ezproxy-ca` to generate one first."
  const HostnameMessage := "hostname is required in https proxy"
  const PortMessage := "proxy port is required"
  const RecorderMessage := "recorder is required"
  const NotInitMessage := "server status is not PROXY_STATUS_INIT, can not run start()"
  const ThrottleMessage := "Invalid throttle rate value, should be positive integer"
  const SocketKeyPrefix := "socketIndex_"

  // ---------------------------------------------------------------------------
  // Proxy type: `/https/i.test(config.type || 'http')`

  /** ASCII lower case; a case-insensitive regular expression without the
      `u` flag folds no other character onto an ASCII letter. */
  function LowerAscii(c: char): char
  {
    if 'A' <= c <= 'Z' then (c as int + 32) as char else c
  }

  /** `pat` (in lower case) occurs at position `i` of `s`, ignoring case. */
  predicate MatchesAt(s: string, i: nat, pat: string)
    requires i + |pat| <= |s|
  {
    forall j :: 0 <= j < |pat| ==> LowerAscii(s[i + j]) == pat[j]
  }

  /** `/pat/i.test(s)`: some position of `s` matches. */
  function ContainsIgnoringCase(s: string, pat: string): (r: bool)
    ensures r <==> exists i: nat :: i + |pat| <= |s| && MatchesAt(s, i, pat)
  {
    if |s| < |pat| then false
    else if MatchesAt(s, 0, pat) then true
    else
      var r := ContainsIgnoringCase(s[1..], pat);
      assert forall i: nat :: i + 1 + |pat| <= |s| ==> (MatchesAt(s[1..], i, pat) <==> MatchesAt(s, i + 1, pat));
      if r then
        var i: nat :| i + |pat| <= |s[1..]| && MatchesAt(s[1..], i, pat);
        assert MatchesAt(s, i + 1, pat);
        r
      else
        assert forall i: nat :: 1 <= i && i + |pat| <= |s| ==> !MatchesAt(s, i, pat) by {
          forall i: nat | 1 <= i && i + |pat| <= |s|
            ensures !MatchesAt(s, i, pat)
          {
            assert !MatchesAt(s[1..], i - 1, pat);
          }
        }
        r
  }

  /** The proxy is an HTTPS proxy when `config.type` is a string containing
      "https" in any case; an absent or falsy type stands for 'http'. Values
      other than strings have no such text form. */
  function IsHttpsType(kind: Value): (https: bool)
    ensures https <==> kind.Str? && ContainsIgnoringCase(kind.s, "https")
  {
    var t := if Truthy(kind) then kind else Str("http");
    t.Str? && ContainsIgnoringCase(t.s, "https")
  }

  /** Any capitalisation of "https" inside the type selects HTTPS. */
  lemma HttpsTypeIgnoresCase(prefix: string, word: string, suffix: string)
    requires |word| == 5 && forall j :: 0 <= j < 5 ==> LowerAscii(word[j]) == "https"[j]
    ensures IsHttpsType(Str(prefix + word + suffix))
  {
    var s := prefix + word + suffix;
    assert forall j :: 0 <= j < 5 ==> s[|prefix| + j] == word[j];
    assert MatchesAt(s, |prefix|, "https");
  }

  // ---------------------------------------------------------------------------
  // Constructor checks

  /** The rule module's members the constructor inspects. */
  datatype RuleModule = RuleModule(beforeDealHttpsRequest: Value, summary: Value)

  /** The configuration object; absent properties are `Undefined`. */
  datatype ProxyConfig = ProxyConfig(
    port: Value,
    kind: Value,
    hostname: Value,
    recorder: Value,
    rule: Option<RuleModule>,
    forceProxyHttps: Value,
    silent: Value)

  /** What the constructor reads from its surroundings: the running Node
      version string and whether the root CA file exists. */
  datatype Environment = Environment(nodeVersion: string, rootCAExists: bool)

  /** What a constructor that did not throw has decided. */
  datatype CoreSettings = CoreSettings(
    port: Value,
    https: bool,
    hostName: Value,
    forceProxyHttps: bool,
    interceptIgnored: bool,
    silent: bool)

  /** `parseInt(process.versions.node.split('.')[0], 10) < 4`; a NaN major
      version compares false. */
  predicate NodeTooOld(env: Environment)
  {
    var major := ParseInt(FirstPiece(env.nodeVersion, '.'));
    major.Num? && major.n < 4
  }

  /** `config.forceProxyHttps && config.rule && config.rule.beforeDealHttpsRequest`. */
  predicate RuleDealsWithHttps(config: ProxyConfig)
  {
    config.rule.Some? && Truthy(config.rule.value.beforeDealHttpsRequest)
  }

  /** The constructor's chain of checks. The first failing one throws; when
      all pass and the rule has its own `beforeDealHttpsRequest`, the
      `forceProxyHttps` option is dropped with a warning. */
  function CheckConfig(config: ProxyConfig, env: Environment): (r: Completion<CoreSettings>)
    ensures r.Normal? <==>
      && !NodeTooOld(env)
      && (Truthy(config.forceProxyHttps) ==> env.rootCAExists)
      && (IsHttpsType(config.kind) ==> Truthy(config.hostname))
      && Truthy(config.port)
      && Truthy(config.recorder)
    // Each error is raised only when its check fails and every earlier one passed.
    ensures r == Throw(Error(NodeVersionMessage)) <==> NodeTooOld(env)
    ensures r == Throw(Error(RootCAMessage)) <==>
      !NodeTooOld(env) && Truthy(config.forceProxyHttps) && !env.rootCAExists
    ensures r == Throw(Error(HostnameMessage)) <==>
      && !NodeTooOld(env) && (Truthy(config.forceProxyHttps) ==> env.rootCAExists)
      && IsHttpsType(config.kind) && !Truthy(config.hostname)
    ensures r == Throw(Error(PortMessage)) <==>
      && !NodeTooOld(env) && (Truthy(config.forceProxyHttps) ==> env.rootCAExists)
      && (IsHttpsType(config.kind) ==> Truthy(config.hostname))
      && !Truthy(config.port)
    ensures r == Throw(Error(RecorderMessage)) <==>
      && !NodeTooOld(env) && (Truthy(config.forceProxyHttps) ==> env.rootCAExists)
      && (IsHttpsType(config.kind) ==> Truthy(config.hostname))
      && Truthy(config.port) && !Truthy(config.recorder)
    ensures r.Normal? ==>
      var s := r.value;
      && s.port == config.port
      && s.https == IsHttpsType(config.kind)
      && s.hostName == (if Truthy(config.hostname) then config.hostname else Str("localhost"))
      && (s.interceptIgnored <==> Truthy(config.forceProxyHttps) && RuleDealsWithHttps(config))
      && (s.forceProxyHttps <==> Truthy(config.forceProxyHttps) && !RuleDealsWithHttps(config))
      && s.silent == Truthy(config.silent)
  {
    var https := IsHttpsType(config.kind);
    var force := Truthy(config.forceProxyHttps);
    if NodeTooOld(env) then Throw(Error(NodeVersionMessage))
    else if force && !env.rootCAExists then Throw(Error(RootCAMessage))
    else if https && !Truthy(config.hostname) then Throw(Error(HostnameMessage))
    else if !Truthy(config.port) then Throw(Error(PortMessage))
    else if !Truthy(config.recorder) then Throw(Error(RecorderMessage))
    else
      var ignored := force && RuleDealsWithHttps(config);
      Normal(CoreSettings(
        config.port,
        https,
        if Truthy(config.hostname) then config.hostname else Str("localhost"),
        force && !ignored,
        ignored,
        Truthy(config.silent)))
  }

  // ---------------------------------------------------------------------------
  // Throttle

  /** `throttle(bps)`: the byte rate handed to the throttle group, or the
      error for a rate below 1. A rate that is not a number passes the check
      (NaN < 1 is false) and yields a NaN byte rate. */
  function ThrottleRate(bps: string): (r: Completion<Value>)
    ensures r.Throw? <==> ParseInt(bps).Num? && ParseInt(bps).n < 1
    ensures r.Throw? ==> r.error == Error(ThrottleMessage)
    ensures r.Normal? && ParseInt(bps).Num? ==> r.value == Num(1024 * ParseInt(bps).n) && r.value.n >= 1024
    ensures r.Normal? && ParseInt(bps).NaN? ==> r.value == NaN
  {
    var rate := ParseInt(bps);
    if rate.Num? && rate.n < 1 then Throw(Error(ThrottleMessage))
    else if rate.Num? then Normal(Num(1024 * rate.n))
    else Normal(NaN)
  }

  /** A rate written as a decimal integer is accepted exactly when it is
      positive, and then counts kilobytes per second. */
  lemma ThrottleRateOfDecimal(k: int)
    ensures ThrottleRate(IntToString(k)) == if k < 1 then Throw(Error(ThrottleMessage)) else Normal(Num(1024 * k))
  {
    ParseIntOfIntToString(k);
  }

  // ---------------------------------------------------------------------------
  // The socket pool

  /** `socketIndex_${n}`. */
  function SocketKey(n: int): (key: string)
    ensures SocketKeyPrefix <= key && key[|SocketKeyPrefix|..] == IntToString(n)
  {
    SocketKeyPrefix + IntToString(n)
  }

  /** Different socket numbers give different pool keys. */
  lemma SocketKeyInjective(m: int, n: int)
    requires SocketKey(m) == SocketKey(n)
    ensures m == n
  {
    assert IntToString(m) == SocketKey(m)[|SocketKeyPrefix|..];
    IntToStringInjective(m, n);
  }

  /** Every pooled socket is keyed by a number handed out so far, each key
      once. */
  predicate PoolKeyed(pool: Entries<nat>, index: int)
  {
    && UniqueKeys(pool)
    && forall i :: 0 <= i < |pool| ==> exists n :: 1 <= n <= index && pool[i].0 == SocketKey(n)
  }

  /** The next number's key is not in the pool. */
  lemma NextKeyIsNew(pool: Entries<nat>, index: int)
    requires PoolKeyed(pool, index)
    ensures !Has(pool, SocketKey(index + 1))
  {
    HasIndex(pool, SocketKey(index + 1));
    forall i | 0 <= i < |pool|
      ensures pool[i].0 != SocketKey(index + 1)
    {
      var n :| 1 <= n <= index && pool[i].0 == SocketKey(n);
      if pool[i].0 == SocketKey(index + 1) {
        SocketKeyInjective(n, index + 1);
      }
    }
  }

  /** Adding the next socket keeps the pool keyed by the advanced counter. */
  lemma PoolGrows(pool: Entries<nat>, index: int, socket: nat)
    requires index >= 0 && PoolKeyed(pool, index) && !Has(pool, SocketKey(index + 1))
    ensures PoolKeyed(pool + [(SocketKey(index + 1), socket)], index + 1)
  {
    var pool' := pool + [(SocketKey(index + 1), socket)];
    AppendNewUnique(pool, SocketKey(index + 1), socket);
    forall i | 0 <= i < |pool'|
      ensures exists n :: 1 <= n <= index + 1 && pool'[i].0 == SocketKey(n)
    {
      if i < |pool| {
        var n :| 1 <= n <= index && pool[i].0 == SocketKey(n);
        assert pool'[i] == pool[i];
        assert 1 <= n <= index + 1 && pool'[i].0 == SocketKey(n);
      } else {
        assert pool'[i].0 == SocketKey(index + 1);
        assert 1 <= index + 1 <= index + 1;
      }
    }
  }

  /** Pooling a socket under the next number appends it. */
  lemma PoolAfterConnection(pool: Entries<nat>, index: int, socket: nat)
    requires index >= 0 && PoolKeyed(pool, index)
    ensures !Has(pool, SocketKey(index + 1))
    ensures Put(pool, SocketKey(index + 1), socket) == pool + [(SocketKey(index + 1), socket)]
    ensures PoolKeyed(Put(pool, SocketKey(index + 1), socket), index + 1)
  {
    NextKeyIsNew(pool, index);
    PoolGrows(pool, index, socket);
    PutNewAppends(pool, SocketKey(index + 1), socket);
  }

  /** Removing a key keeps the pool keyed. */
  lemma PoolShrinks(pool: Entries<nat>, index: int, key: string)
    requires PoolKeyed(pool, index)
    ensures PoolKeyed(Delete(pool, key), index)
    ensures !Has(Delete(pool, key), key)
    ensures forall k :: k != key ==> (Has(Delete(pool, key), k) <==> Has(pool, k))
  {
    DeleteUnique(pool, key);
    KeysDelete(pool, key);
    var d := Delete(pool, key);
    forall i | 0 <= i < |d|
      ensures exists n :: 1 <= n <= index && d[i].0 == SocketKey(n)
    {
      assert Has(d, d[i].0) by {
        assert Keys(d)[i] == d[i].0;
      }
      HasIndex(pool, d[i].0);
      var j :| 0 <= j < |pool| && pool[j].0 == d[i].0;
      var n :| 1 <= n <= index && pool[j].0 == SocketKey(n);
    }
  }

  // ---------------------------------------------------------------------------
  // Close

  /** A call `close` makes, in order. */
  datatype CoreAction =
    | EndConnection(key: string)
    | EndClientSocket(key: string)
    | DestroySocket(key: string, socket: nat)
    | CloseListener

  /** `conn.end()` for each entry of the request handler's `conns`. */
  function EndConnections(conns: seq<(string, nat)>): (r: seq<CoreAction>)
    ensures |r| == |conns| && forall i :: 0 <= i < |conns| ==> r[i] == EndConnection(conns[i].0)
  {
    if conns == [] then [] else EndConnections(conns[..|conns| - 1]) + [EndConnection(conns[|conns| - 1].0)]
  }

  /** `cltSocket.end()` for each entry of the request handler's `cltSockets`. */
  function EndClientSockets(sockets: seq<(string, nat)>): (r: seq<CoreAction>)
    ensures |r| == |sockets| && forall i :: 0 <= i < |sockets| ==> r[i] == EndClientSocket(sockets[i].0)
  {
    if sockets == [] then [] else EndClientSockets(sockets[..|sockets| - 1]) + [EndClientSocket(sockets[|sockets| - 1].0)]
  }

  /** `socketPool[key].destroy()` for each pooled socket, in key order. */
  function DestroySockets(pool: Entries<nat>): (r: seq<CoreAction>)
    ensures |r| == |pool| && forall i :: 0 <= i < |pool| ==> r[i] == DestroySocket(pool[i].0, pool[i].1)
  {
    if pool == [] then [] else DestroySockets(pool[..|pool| - 1]) + [DestroySocket(pool[|pool| - 1].0, pool[|pool| - 1].1)]
  }

  /** Everything `close` does before the listener is closed. */
  function ShutdownActions(conns: seq<(string, nat)>, sockets: seq<(string, nat)>, pool: Entries<nat>): seq<CoreAction>
  {
    EndConnections(conns) + EndClientSockets(sockets) + DestroySockets(pool) + [CloseListener]
  }

  /** The listener is closed last, after every connection, client socket and
      pooled socket has been ended or destroyed. */
  lemma ListenerClosedLast(conns: seq<(string, nat)>, sockets: seq<(string, nat)>, pool: Entries<nat>)
    ensures var a := ShutdownActions(conns, sockets, pool);
      && |a| == |conns| + |sockets| + |pool| + 1
      && a[|a| - 1] == CloseListener
      && (forall i :: 0 <= i < |conns| ==> EndConnection(conns[i].0) in a[..|a| - 1])
      && (forall i :: 0 <= i < |sockets| ==> EndClientSocket(sockets[i].0) in a[..|a| - 1])
      && (forall i :: 0 <= i < |pool| ==> DestroySocket(pool[i].0, pool[i].1) in a[..|a| - 1])
  {
    var a := ShutdownActions(conns, sockets, pool);
    var e, c, d := EndConnections(conns), EndClientSockets(sockets), DestroySockets(pool);
    assert a[..|a| - 1] == e + c + d;
    forall i | 0 <= i < |conns|
      ensures EndConnection(conns[i].0) in a[..|a| - 1]
    {
      assert (e + c + d)[i] == e[i];
    }
    forall i | 0 <= i < |sockets|
      ensures EndClientSocket(sockets[i].0) in a[..|a| - 1]
    {
      assert (e + c + d)[|e| + i] == c[i];
    }
    forall i | 0 <= i < |pool|
      ensures DestroySocket(pool[i].0, pool[i].1) in a[..|a| - 1]
    {
      assert (e + c + d)[|e| + |c| + i] == d[i];
    }
  }

  /** The loop of `close` over `conns`. */
  method EndEachConnection(conns: seq<(string, nat)>) returns (acts: seq<CoreAction>)
    ensures acts == EndConnections(conns)
  {
    acts := [];
    var i := 0;
    while i < |conns|
      invariant 0 <= i <= |conns|
      invariant acts == EndConnections(conns[..i])
    {
      assert conns[..i + 1][..i] == conns[..i];
      acts := acts + [EndConnection(conns[i].0)];
      i := i + 1;
    }
    assert conns[..i] == conns;
  }

  /** The loop of `close` over `cltSockets`. */
  method EndEachClientSocket(sockets: seq<(string, nat)>) returns (acts: seq<CoreAction>)
    ensures acts == EndClientSockets(sockets)
  {
    acts := [];
    var i := 0;
    while i < |sockets|
      invariant 0 <= i <= |sockets|
      invariant acts == EndClientSockets(sockets[..i])
    {
      assert sockets[..i + 1][..i] == sockets[..i];
      acts := acts + [EndClientSocket(sockets[i].0)];
      i := i + 1;
    }
    assert sockets[..i] == sockets;
  }

  /** The loop of `close` over the socket pool. */
  method DestroyEachSocket(pool: Entries<nat>) returns (acts: seq<CoreAction>)
    ensures acts == DestroySockets(pool)
  {
    acts := [];
    var i := 0;
    while i < |pool|
      invariant 0 <= i <= |pool|
      invariant acts == DestroySockets(pool[..i])
    {
      assert pool[..i + 1][..i] == pool[..i];
      acts := acts + [DestroySocket(pool[i].0, pool[i].1)];
      i := i + 1;
    }
    assert pool[..i] == pool;
  }

  // ---------------------------------------------------------------------------
  // The core

  datatype Status = Init | Ready | Closed

  /** How a returned promise settles, or `Unsettled` when the callback that
      should settle it throws `thrown` first. */
  datatype Settled = Resolved(value: Value) | Rejected(error: JsError) | Unsettled(thrown: JsError)

  /** The events the core emits. */
  datatype CoreEvent = ReadyEvent | ErrorEvent(error: JsError)

  /** The request handler's state the proxy touches: its `forceProxyHttps`
      flag, the five rule objects the dispatchers walk, and the open
      connections and client sockets of HTTPS tunnels. */
  class RequestHandler {
    var forceProxyHttps: bool
    var rulesOnRequest: Entries<RequestRule>
    var rulesOnResponse: Entries<ResponseRule>
    var rulesOnForceHttps: Entries<RequestRule>
    var rulesOnError: Entries<ErrorRule>
    var rulesOnConnectError: Entries<ErrorRule>
    var conns: seq<(string, nat)>
    var cltSockets: seq<(string, nat)>

    ghost predicate Valid()
      reads this
    {
      && UniqueKeys(rulesOnRequest) && UniqueKeys(rulesOnResponse) && UniqueKeys(rulesOnForceHttps)
      && UniqueKeys(rulesOnError) && UniqueKeys(rulesOnConnectError)
    }

    constructor (forceProxyHttps: bool)
      ensures Valid() && this.forceProxyHttps == forceProxyHttps
      ensures rulesOnRequest == [] && rulesOnResponse == [] && rulesOnForceHttps == []
      ensures rulesOnError == [] && rulesOnConnectError == []
      ensures conns == [] && cltSockets == []
    {
      this.forceProxyHttps := forceProxyHttps;
      rulesOnRequest := [];
      rulesOnResponse := [];
      rulesOnForceHttps := [];
      rulesOnError := [];
      rulesOnConnectError := [];
      conns := [];
      cltSockets := [];
    }
  }

  class ProxyCore {
    var status: Status
    const proxyPort: Value
    const https: bool
    const hostName: Value
    const handler: RequestHandler
    const recorder: Recorder
    /** `httpProxyServer` is not null. */
    var listening: bool
    var socketIndex: int
    var socketPool: Entries<nat>
    /** The byte rate of the global throttle group, once set. */
    var throttleRate: Option<Value>
    var actions: seq<CoreAction>
    var events: seq<CoreEvent>

    ghost predicate Valid()
      reads this, handler, recorder
    {
      && socketIndex >= 0
      && PoolKeyed(socketPool, socketIndex)
      && (listening ==> status == Ready)
      && handler.Valid()
      && recorder.Valid()
    }

    /** The constructor once `CheckConfig` has passed; a silent proxy turns
        printing off. */
    constructor (settings: CoreSettings, recorder: Recorder, logger: Logger)
      requires recorder.Valid()
      modifies logger
      ensures Valid()
      ensures status == Init && !listening && socketIndex == 0 && socketPool == []
      ensures proxyPort == settings.port && https == settings.https && hostName == settings.hostName
      ensures this.recorder == recorder && fresh(handler)
      ensures handler.forceProxyHttps == settings.forceProxyHttps
      ensures handler.rulesOnRequest == [] && handler.rulesOnResponse == [] && handler.rulesOnForceHttps == []
      ensures handler.rulesOnError == [] && handler.rulesOnConnectError == []
      ensures handler.conns == [] && handler.cltSockets == []
      ensures throttleRate == None && actions == [] && events == []
      ensures logger.ifPrint == (old(logger.ifPrint) && !settings.silent)
      ensures logger.logLevel == old(logger.logLevel)
    {
      status := Init;
      proxyPort := settings.port;
      https := settings.https;
      hostName := settings.hostName;
      this.recorder := recorder;
      handler := new RequestHandler(settings.forceProxyHttps);
      listening := false;
      socketIndex := 0;
      socketPool := [];
      throttleRate := None;
      actions := [];
      events := [];
      new;
      if settings.silent {
        logger.SetPrintStatus(Bool(false));
      }
    }

    /** `throttle(bps)`. */
    method Throttle(bps: string) returns (r: Completion<()>)
      requires Valid()
      modifies this`throttleRate
      ensures Valid()
      ensures r.Throw? <==> ThrottleRate(bps).Throw?
      ensures r.Throw? ==> r.error == Error(ThrottleMessage) && throttleRate == old(throttleRate)
      ensures r.Normal? ==> throttleRate == Some(ThrottleRate(bps).value)
    {
      var rate := ThrottleRate(bps);
      if rate.Throw? {
        return Throw(rate.error);
      }
      throttleRate := Some(rate.value);
      r := Normal(());
    }

    /** `handleExistConnections(socket)`: the socket is pooled under the next
        number's key. */
    method HandleConnection(socket: nat) returns (key: string)
      requires Valid()
      modifies this`socketIndex, this`socketPool
      ensures Valid()
      ensures socketIndex == old(socketIndex) + 1 && key == SocketKey(socketIndex)
      ensures !Has(old(socketPool), key) && socketPool == old(socketPool) + [(key, socket)]
    {
      var index := socketIndex + 1;
      key := SocketKey(index);
      PoolAfterConnection(socketPool, socketIndex, socket);
      var pool := Put(socketPool, key, socket);
      socketIndex, socketPool := index, pool;
    }

    /** The 'close' listener of a pooled socket: it removes its own key and
        no other. */
    method OnSocketClose(key: string)
      requires Valid()
      modifies this`socketPool
      ensures Valid()
      ensures socketPool == Delete(old(socketPool), key)
      ensures !Has(socketPool, key)
      ensures forall k :: k != key ==> (Has(socketPool, k) <==> Has(old(socketPool), k))
    {
      PoolShrinks(socketPool, socketIndex, key);
      socketPool := Delete(socketPool, key);
    }

    /** `start()`. The pool is reset whatever happens; only a proxy in INIT
        starts. An HTTPS proxy first needs its certificate, whose lookup may
        fail with `certificateError`. That failure is emitted as an 'error'
        event before the promise is rejected; with no 'error' listener
        (`hasErrorListener` false) the emit throws and the promise is never
        settled. */
    method Start(certificateError: Option<JsError>, hasErrorListener: bool) returns (outcome: Settled)
      requires Valid()
      modifies this`socketIndex, this`socketPool, this`status, this`listening, this`events
      ensures Valid()
      ensures socketIndex == 0 && socketPool == []
      ensures outcome.Resolved? <==> old(status) == Init && !(https && certificateError.Some?)
      ensures old(status) != Init ==> outcome == Rejected(Error(NotInitMessage)) && events == old(events)
      ensures outcome.Resolved? ==>
        outcome.value == Str("READY") && status == Ready && listening && events == old(events) + [ReadyEvent]
      ensures !outcome.Resolved? ==> status == old(status) && listening == old(listening)
      ensures old(status) == Init && https && certificateError.Some? ==>
        && events == old(events) + [ErrorEvent(certificateError.value)]
        && outcome == if hasErrorListener then Rejected(certificateError.value) else Unsettled(UnhandledError)
    {
      socketIndex := 0;
      socketPool := [];
      if status != Init {
        return Rejected(Error(NotInitMessage));
      }
      if https && certificateError.Some? {
        events := events + [ErrorEvent(certificateError.value)];
        if !hasErrorListener {
          return Unsettled(UnhandledError);
        }
        return Rejected(certificateError.value);
      }
      listening := true;
      status := Ready;
      events := events + [ReadyEvent];
      outcome := Resolved(Str("READY"));
    }

    /** `close()`. With a server, every connection and client socket is
        ended and every pooled socket destroyed before the listener is
        closed; the proxy is CLOSED only when the listener closes without
        `closeError`. Without a server nothing happens. */
    method Close(closeError: Option<JsError>) returns (outcome: Settled)
      requires Valid()
      modifies this`actions, this`status, this`listening
      ensures Valid()
      ensures !old(listening) ==> outcome == Resolved(Undefined) && actions == old(actions) && status == old(status) && !listening
      ensures old(listening) ==>
        actions == old(actions) + ShutdownActions(handler.conns, handler.cltSockets, socketPool)
      ensures old(listening) && closeError.None? ==> outcome == Resolved(Str("CLOSED")) && status == Closed && !listening
      ensures old(listening) && closeError.Some? ==> outcome == Rejected(closeError.value) && status == old(status) && listening
    {
      if !listening {
        return Resolved(Undefined);
      }
      var ended := EndEachConnection(handler.conns);
      var endedClients := EndEachClientSocket(handler.cltSockets);
      var destroyed := DestroyEachSocket(socketPool);
      var shutdown := ended + endedClients + destroyed + [CloseListener];
      actions := actions + shutdown;
      if closeError.Some? {
        return Rejected(closeError.value);
      }
      listening := false;
      status := Closed;
      outcome := Resolved(Str("CLOSED"));
    }

    /** `close()` of the proxy the facade creates: after the core has closed,
        the recorder's cache is cleared; a failed close is passed on and the
        cache kept. */
    method CloseAndClearCache(closeError: Option<JsError>) returns (outcome: Settled)
      requires Valid()
      modifies this`actions, this`status, this`listening, recorder`files
      ensures Valid()
      ensures old(listening) ==>
        actions == old(actions) + ShutdownActions(handler.conns, handler.cltSockets, socketPool)
      ensures !old(listening) ==> actions == old(actions) && status == old(status) && !listening
      ensures outcome.Resolved? <==> !old(listening) || closeError.None?
      ensures outcome.Resolved? ==> outcome.value == Str("CLOSED") && recorder.files == map[]
      ensures outcome.Rejected? <==> !outcome.Resolved?
      ensures outcome.Rejected? ==>
        && outcome.error == closeError.value && recorder.files == old(recorder.files)
        && status == old(status) && listening
      ensures old(listening) && closeError.None? ==> status == Closed && !listening
    {
      var closed := Close(closeError);
      if closed.Rejected? {
        return Rejected(closed.error);
      }
      recorder.Clear();
      outcome := Resolved(Str("CLOSED"));
    }
  }
}
