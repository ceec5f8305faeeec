# ezproxy core, modelled in Dafny

ezproxy is an intercepting HTTP/HTTPS proxy for Node.js. It records every
exchange that passes through it, and it runs user-supplied tests on the
recorded exchanges. This project models and verifies three parts of it.

- **`ProxyCore`** (proxy.js) is the proxy itself.
  - The constructor checks its configuration in a fixed order.
  - The status goes INIT, then READY, then CLOSED.
  - It keeps a pool of accepted sockets under keys `socketIndex_<n>`.
  - It keeps a throttle rate.
  - `close` shuts things down in order: tunnel connections, client sockets,
    pooled sockets, then the listener.
  - `_ProxyServer.close` also clears the recorder's cache.
- **The `ProxyServer` facade** (proxy.js) wraps the core.
  - It installs the five rule dispatchers.
  - It adds and removes rules, filters and tests.
  - It starts the proxy, and stops it at most once per start.
- **The `Recorder`** (lib/recorder.js) stores what the proxy sees.
  - It hands out record ids.
  - It normalises exchanges into records, stored in a database modelled as a
    map.
  - It sends each record through the filter functions.
  - It writes response bodies and WebSocket frame logs into its cache
    directory, behind the `getCacheFile` path check.
  - It answers `getBody`, `getDecodedWsMessage` and `getRecords`.
  - It runs the registered tests on each stored record. That updates test
    counters, retires exhausted tests, and fills a per-record suite and the
    root report.
- **The logger** (lib/log.js) holds two settings, `ifPrint` and `logLevel`.
  It decides, per message type, whether a message is printed and on which
  stream.

**Files**

| file | contents |
|---|---|
| `js_values.dfy` | JavaScript values, truthiness, `parseInt(s, 10)` and decimal text |
| `js_objects.dfy` | plain objects as insertion-ordered entries |
| `posix_path.dfy` | `path.join` and `path.normalize` |
| `log.dfy` | the logger |
| `rule_dispatch.dfy` | the dispatchers |
| `records.dfy` | `normalizeInfo` and the frame-log format |
| `cache_files.dfy` | `getCacheFile` |
| `test_engine.dfy` | the specification of a test round |
| `recorder.dfy` | the `Recorder` class |
| `proxy.dfy` | `ProxyCore` |
| `proxy_server.dfy` | the facade |

**How the model is built**

- Classes whose fields the source updates in place are Dafny classes.
  - Their methods have field-level `modifies` clauses.
  - The loops of the source are `while` loops with invariants.
- Each method is proved against a specification function. Properties of that
  function are proved as lemmas.
  - For example, `Recorder.PerformTestsOnRecord` is proved equal to
    `TestEngine.Round`.
  - `TestEngine.LazyRetirement` is one of the lemmas about `Round`.
- Calls on collaborators are recorded in order in `actions` lists: database
  inserts and updates, body writes, frame-log appends, emitted events, socket
  calls and the listener's close.

Collaborators the model does not run are turned into parameters:

- the certificate lookup, which is `certificateError`;
- whether the core has an 'error' listener, which is `hasErrorListener`;
- the listener's close, which is `closeError`;
- the system proxy state, which is `systemProxyOn`;
- the Node version and whether the root CA exists, which are `Environment`;
- `uuid.v4()`, which is a counter `nextUuid`;
- the random cache directory name, which is the `cacheDir` parameter.

## Model

| member | source | states |
|---|---|---|
| JsValues.ParseInt | lib/log.js:37 | `parseInt(s, 10)` is a number or NaN; NaN exactly when no digit follows the leading white space and sign |
| JsValues.IntToString | proxy.js:167 | decimal text of an integer; starts with '-' exactly for negatives |
| JsValues.FirstPiece | proxy.js:107 | `s.split(sep)[0]` is the prefix before the first `sep`, or all of `s` |
| JsValues.ParseIntOfIntToString | proxy.js:147 | `parseInt(String(i), 10) === i` |
| JsValues.IntToStringInjective | proxy.js:167 | different integers give different decimal texts |
| JsObjects.Keys | proxy.js:450 | `for (k in obj)` visits the entries' keys in order |
| JsObjects.Get | proxy.js:612 | `obj[k]` is defined exactly when `k` is a key |
| JsObjects.GetPut | proxy.js:461-463 | after `obj[k] = v`, `obj[k]` is `v` and every other key reads as before |
| JsObjects.GetDelete | proxy.js:465-467 | after `delete obj[k]`, `obj[k]` is undefined and every other key reads as before |
| JsObjects.KeysPut | proxy.js:598 | assigning a new key appends it to the key order; assigning an existing key keeps the order |
| JsObjects.KeysDelete | proxy.js:171-173 | `delete` removes that key and keeps every other |
| JsObjects.PutUnique | proxy.js:598 | assignment keeps keys unique |
| JsObjects.DeleteUnique | proxy.js:466 | deletion keeps keys unique |
| JsObjects.PutAt | lib/recorder.js:203 | assigning the key at position i replaces that entry in place |
| JsObjects.DeleteAt | lib/recorder.js:218 | deleting the key at position i removes exactly that entry |
| JsObjects.PutNewAppends | proxy.js:168 | assigning a key that is absent appends the entry |
| JsObjects.GetAppend | lib/recorder.js:163-164 | a lookup on a concatenation looks in the first part first |
| PosixPath.SplitJoin | lib/recorder.js:515 | splitting joined segments without '/' gives the segments back |
| PosixPath.JoinName | lib/recorder.js:515 | `path.join(dir, name)` of a canonical directory and a plain name is `dir + '/' + name` |
| PosixPath.JoinParent | lib/recorder.js:515 | `path.join(dir, '..')` is the parent directory ('/' for a top-level one) |
| PosixPath.JoinIntoSibling | lib/recorder.js:515 | `path.join(dir, '../' + sibling + '/' + x)` resolves into the sibling directory |
| PosixPath.PrefixWithSeparatorIsWithin | lib/recorder.js:517 | a path equal to the directory, or starting with the directory and '/', lies within it |
| Log.Gate | lib/log.js:40-91 | silent when printing is off; tip, system error, rule error and warn print while the level is at most 0, 1, 2 and 3, on stdout and stderr with their tags; debug and unknown types always print on stdout; a NaN level suppresses nothing |
| Log.LowerLevelPrintsMore | lib/log.js:46-79 | a message printed at some level is printed identically at every lower level |
| Log.Logger.constructor | lib/log.js:22-23 | printing on, level 0 |
| Log.Logger.SetPrintStatus | lib/log.js:32-34 | `ifPrint` becomes `!!status`; the level is unchanged |
| Log.Logger.SetLogLevel | lib/log.js:36-38 | the level becomes `parseInt(level, 10)`, NaN included; `ifPrint` is unchanged |
| Log.Logger.PrintLog | lib/log.js:40-44 | nothing is printed while printing is off |
| Log.Logger.DebugLog | lib/log.js:95-97 | printed on stdout whenever printing is on |
| Log.Logger.Info | lib/log.js:99-101 | printed on stdout only at level 0 or below |
| Log.Logger.WarnLog | lib/log.js:103-105 | printed on stderr with the WARN tag at level 3 or below |
| Log.Logger.ErrorLog | lib/log.js:107-109 | printed on stderr with the ERROR tag at level 1 or below |
| Log.Logger.RuleErrorLog | lib/log.js:111-113 | printed on stderr with the RULE_ERROR tag at level 2 or below |
| Log.SilenceSuppressesAll | lib/log.js:32-44 | after `setPrintStatus(false)` no message of any type prints |
| RuleDispatch.FirstTruthy | proxy.js:449-457 | the result is the first truthy rule answer in key order, all earlier ones falsy; or the fallback, all answers falsy |
| RuleDispatch.OnRequest | proxy.js:448-459 | `null` exactly when no rule answers truthily, otherwise a truthy answer |
| RuleDispatch.OnResponse | proxy.js:469-480 | `null` exactly when no rule answers truthily, otherwise a truthy answer |
| RuleDispatch.OnForceHttps | proxy.js:490-501 | the incoming state when no rule answers; any other result is truthy |
| RuleDispatch.OnError | proxy.js:511-522 | `null` exactly when no rule answers truthily, otherwise a truthy answer |
| RuleDispatch.OnConnectError | proxy.js:532-543 | as written: returns `null` exactly for an empty rule object; otherwise throws a ReferenceError |
| RuleDispatch.OnConnectErrorIntended | proxy.js:532-543 | the intended dispatcher: `null` exactly when no rule answers truthily |
| RuleDispatch.ConnectErrorAnswerLost | proxy.js:534-536 | a single answering rule: the written dispatcher throws, the intended one returns the answer |
| RuleDispatch.FirstTruthyAppend | proxy.js:450-455 | rules are consulted in key order: later rules matter only when the earlier ones are falsy |
| RuleDispatch.NewRuleIsConsultedLast | proxy.js:461-463 | a rule added under a new name is consulted after all existing ones |
| RuleDispatch.RemovingSilentRuleIsHarmless | proxy.js:465-467 | removing a rule whose answer is falsy leaves the dispatch result unchanged |
| Records.OrEmpty | lib/recorder.js:71-72 | `x \|\| ''` for an optional string |
| Records.ContentType | lib/recorder.js:81 | the lower-case `content-type` wins when non-empty, else `Content-Type`, else '' |
| Records.NormalizeInfo | lib/recorder.js:58-99 | throws a TypeError exactly when the response arrived without body or header object; copies the request fields; before the response every response field is ''; after it, the status, times, headers, body and length are copied; mime is the content type up to the first ';'; duration is end minus start |
| Records.AppendFrame | lib/recorder.js:291 | appending a frame adds its text and one ',' |
| Records.FrameLog | lib/recorder.js:289-292 | a non-empty log ends with ',' |
| Records.StripTrailingComma | lib/recorder.js:470 | `replace(/,$/, '')` removes exactly one trailing ',' if there is one |
| Records.ReadFrames | lib/recorder.js:470 | the text parsed is wrapped in '[' and ']' |
| Records.FrameLogIsJoined | lib/recorder.js:291 | the log of frames is the frames joined by ',' plus a final ',' |
| Records.FrameLogRoundTrip | lib/recorder.js:462-472 | reading the log back gives the frames in append order as one JSON array |
| CacheFiles.CacheFileAsWritten | lib/recorder.js:512-523 | as written: accepted paths are `path.join(cachePath, name)` and start with the cache path's text; refused ones carry 'invalid cache file path' |
| CacheFiles.CacheFile | lib/recorder.js:512-523 | corrected check: every accepted path lies inside the cache directory |
| CacheFiles.AsWrittenEscapes | lib/recorder.js:517 | the written check accepts `../<dir><s>/x`, a path outside the directory, which the corrected check refuses |
| CacheFiles.BothAcceptNames | lib/recorder.js:515-521 | both checks accept `cachePath + '/' + name` for a plain name |
| CacheFiles.BothRefuseParent | lib/recorder.js:517-518 | both checks refuse '..' |
| CacheFiles.RecorderFileNames | lib/recorder.js:47-48 | `res_body_<id>` and `ws_message_<id>` are plain names |
| CacheFiles.ChecksAgreeOnRecorderFiles | lib/recorder.js:353 | the two checks agree on every name the Recorder asks for |
| TestEngine.FateOf | lib/recorder.js:167-220 | a test runs exactly when `testedCount < testCount` and it is enabled; it is retired exactly when `testedCount == testCount`; otherwise skipped |
| TestEngine.Survivor | lib/recorder.js:203-218 | a test leaves at most one entry, under its own name |
| TestEngine.Round | lib/recorder.js:156-239 | one round uses one identifier for the suite and one per executed test |
| TestEngine.KeptGet | lib/recorder.js:163-221 | after a round, an exhausted test is gone, a test that ran has its counter up by one, every other test is unchanged |
| TestEngine.KeptUnique | lib/recorder.js:218 | a round keeps test names unique |
| TestEngine.RunsFacts | lib/recorder.js:173-202 | the j-th result takes identifier `first + j`, comes from a test that ran with that outcome, and every test that ran has a result |
| TestEngine.PassesAndFailures | lib/recorder.js:190-200 | every result's identifier is in the passes exactly when it passed and in the failures exactly when it failed; passes plus failures count all results |
| TestEngine.RoundStep | lib/recorder.js:163-164 | at each step of the loop over the key snapshot, the test read by name is the snapshot's, and handling it changes only its own entry |
| TestEngine.SurvivorInPlace | lib/recorder.js:203-218 | running a test updates its entry in place; retiring deletes it; skipping changes nothing |
| TestEngine.RoundStart | lib/recorder.js:158-163 | before the loop the round's invariant holds with empty suite lists |
| TestEngine.RoundFinish | lib/recorder.js:233-235 | after the loop the state is `Round` of the initial state; the suite joins the report only when it ran something |
| TestEngine.RunAdvances | lib/recorder.js:173-203 | an executed test takes the next identifier, lands in tests and in passes or failures, and its counter goes up |
| TestEngine.SkipAdvances | lib/recorder.js:169-170 | a skipped test changes nothing |
| TestEngine.RetireAdvances | lib/recorder.js:217-219 | an exhausted test is deleted and records nothing |
| TestEngine.NotRunNoResult | lib/recorder.js:169-220 | a test that is absent, disabled, exhausted or over its count gets no result |
| TestEngine.RunHasResult | lib/recorder.js:169-203 | a test that runs gets a result with its outcome |
| TestEngine.LazyRetirement | lib/recorder.js:169-219 | the round on which a test reaches its count runs and keeps it; the next round deletes it without running it |
| Recording.BodyFileAccepted | lib/recorder.js:353 | the cache check accepts every record's body file |
| Recording.WsLogFileAccepted | lib/recorder.js:289 | the cache check accepts every record's frame log |
| Recording.WrittenBodyReadsBack | lib/recorder.js:345-383 | a body written by `updateRecordBody` is what `getBody` reads back |
| Recording.FramesReadBack | lib/recorder.js:447-482 | frames appended by `updateRecordWsMessage` read back in order as one JSON array |
| Recording.CountTruthy | lib/recorder.js:324-325 | at most one delivery per filter |
| Recording.DeliveryStep | lib/recorder.js:324-333 | one more accepted filter adds one delivery: writes are idempotent, calls and test rounds accumulate |
| Recording.DbAfterTwice | lib/recorder.js:326 | storing the same record twice is storing it once |
| Recording.WriteBodyTwice | lib/recorder.js:355 | writing the same body file twice is writing it once |
| Recording.DeliveryCounts | lib/recorder.js:326-328 | one delivery makes one database write, one update event, and one body write exactly when there is a body |
| Recording.FanOutCounts | lib/recorder.js:323-341 | k deliveries make exactly k database writes, k update events, and k body writes when there is a body |
| Recording.ScanStart | lib/recorder.js:501 | the scan starts with nothing listed |
| Recording.ScanStep | lib/recorder.js:501-503 | each id step lists the stored record with that id, keeping ascending order |
| Recording.ScanDone | lib/recorder.js:501-504 | the finished scan is the window: from the start id on, ascending, at most the limit, none skipped |
| Recording.EffectiveLimit | lib/recorder.js:499 | `limit \|\| 10` is at least 1, and is the limit when one is given |
| Recording.WindowStart | lib/recorder.js:500-501 | a number start is kept, NaN stays NaN, otherwise `globalId - limit` |
| Recording.Recorder.constructor | lib/recorder.js:102-141 | `globalId` 1, empty database and cache, `filterFunctions` null, no tests, empty report |
| Recording.Recorder.PerformTestsOnRecord | lib/recorder.js:156-239 | the test state afterwards is `Round` of the state before |
| Recording.Recorder.HandleTests | lib/recorder.js:163-222 | the loop over the key snapshot ends in the round's final state |
| Recording.Recorder.HandleTest | lib/recorder.js:163-221 | one name of the snapshot advances the round by one step |
| Recording.Recorder.RunTest | lib/recorder.js:171-203 | running a test advances the round by one step |
| Recording.Recorder.UpdateRecordBody | lib/recorder.js:345-357 | the body goes into the record's body file, except for ids -1 and 0 or an undefined body; one file write is logged exactly then |
| Recording.Recorder.StoreRecord | lib/recorder.js:326 | insert adds the record unless its id is stored; update replaces only a stored id; the call is logged |
| Recording.Recorder.Deliver | lib/recorder.js:326-331 | one delivery: database write, body file, update event, and a test round exactly when tests were registered |
| Recording.Recorder.FanOut | lib/recorder.js:323-341 | one delivery without filters, otherwise one per accepting filter |
| Recording.Recorder.DeliverFiltered | lib/recorder.js:323-333 | one delivery per accepting filter, in filter order |
| Recording.Recorder.AppendRecord | lib/recorder.js:315-343 | the record takes the current `globalId`, which always advances; a throwing normalisation leaves everything else unchanged; otherwise k deliveries of the record |
| Recording.Recorder.UpdateRecord | lib/recorder.js:245-280 | nothing for a negative id; otherwise like `appendRecord`, except that only an already stored id is replaced |
| Recording.Recorder.UpdateExtInfo | lib/recorder.js:304-313 | a stored record gets its `ext` and is re-emitted; otherwise nothing changes |
| Recording.Recorder.UpdateRecordWsMessage | lib/recorder.js:286-302 | a negative id is ignored; otherwise the frame is appended to the record's log, the append is logged, and the frame is announced |
| Recording.Recorder.GetBody | lib/recorder.js:363-383 | '' for a negative id, otherwise the body file or the access error; never the path error |
| Recording.Recorder.GetDecodedWsMessage | lib/recorder.js:447-482 | `[]` as the error for a negative id, otherwise the log as one JSON array or the access error; never the path error |
| Recording.Recorder.GetRecords | lib/recorder.js:496-505 | the records from the start id on, ascending, at most the limit, none skipped; nothing for a NaN start |
| Recording.Recorder.Clear | lib/recorder.js:507-510 | the cache directory is emptied |
| Proxy.ContainsIgnoringCase | proxy.js:103 | `/pat/i.test(s)`: true exactly when some position of `s` matches, ignoring ASCII case |
| Proxy.IsHttpsType | proxy.js:103 | HTTPS exactly when the type is a string containing "https" in any case |
| Proxy.HttpsTypeIgnoresCase | proxy.js:103 | any capitalisation of "https" anywhere in the type selects HTTPS |
| Proxy.CheckConfig | proxy.js:101-121 | the constructor succeeds exactly when all five checks pass; each error is raised exactly when its check fails and every earlier one passes; the host name defaults to 'localhost'; `forceProxyHttps` is dropped exactly when the rule has `beforeDealHttpsRequest` |
| Proxy.ThrottleRate | proxy.js:146-152 | throws exactly when the parsed rate is a number below 1; otherwise 1024 times the rate, or NaN |
| Proxy.ThrottleRateOfDecimal | proxy.js:147-151 | a decimal rate is accepted exactly when positive, and means rate KiB per second |
| Proxy.SocketKey | proxy.js:167 | `socketIndex_` followed by the number's decimal text |
| Proxy.SocketKeyInjective | proxy.js:167 | different numbers give different pool keys |
| Proxy.NextKeyIsNew | proxy.js:166-168 | the next number's key is not yet in the pool |
| Proxy.PoolGrows | proxy.js:166-168 | pooling under the next number keeps the pool keyed by handed-out numbers |
| Proxy.PoolAfterConnection | proxy.js:164-168 | pooling under the next number appends the socket and keeps the pool keyed |
| Proxy.PoolShrinks | proxy.js:171-173 | removing a key keeps the pool keyed and every other key |
| Proxy.EndConnections | proxy.js:295-300 | one `end` per tunnel connection, in order |
| Proxy.EndClientSockets | proxy.js:302-307 | one `end` per client socket, in order |
| Proxy.DestroySockets | proxy.js:309-313 | one `destroy` per pooled socket, in key order |
| Proxy.ListenerClosedLast | proxy.js:293-315 | the listener is closed last, after every connection, client socket and pooled socket |
| Proxy.EndEachConnection | proxy.js:295-300 | the loop makes exactly the `EndConnections` calls |
| Proxy.EndEachClientSocket | proxy.js:302-307 | the loop makes exactly the `EndClientSockets` calls |
| Proxy.DestroyEachSocket | proxy.js:309-313 | the loop makes exactly the `DestroySockets` calls |
| Proxy.RequestHandler.constructor | proxy.js:137-143 | the handler gets the `forceProxyHttps` flag, with no rules and no open connections |
| Proxy.ProxyCore.constructor | proxy.js:97-144 | status INIT, settings as checked, fresh handler; a silent proxy turns printing off |
| Proxy.ProxyCore.Throttle | proxy.js:146-152 | stores the byte rate, or throws and keeps the old one |
| Proxy.ProxyCore.HandleConnection | proxy.js:164-174 | the index goes up by one; the socket is appended under the new key, which was not in the pool |
| Proxy.ProxyCore.OnSocketClose | proxy.js:171-173 | the socket's own key is removed, and no other |
| Proxy.ProxyCore.Start | proxy.js:182-280 | the pool is reset in every case; resolves 'READY' exactly from INIT with no certificate error, then READY, listening and the ready event; rejects from any other status and emits nothing; a certificate error emits the error event, then rejects with it when an 'error' listener exists, and otherwise the emit throws and the promise never settles; a start that does not resolve keeps the status and the listener |
| Proxy.ProxyCore.Close | proxy.js:290-330 | without a server resolves undefined and does nothing; otherwise the shutdown calls in order; CLOSED and 'CLOSED' exactly when the listener closes without error; otherwise rejects and stays READY |
| Proxy.ProxyCore.CloseAndClearCache | proxy.js:357-370 | whenever the core's close resolves (also without a server) the cache is emptied and 'CLOSED' returned; a failed listener close is passed on with the cache, the status and the listener kept; without a server the status is kept and nothing listens |
| ProxyFacade.GetAddedTests | proxy.js:584-609 | after `addTests`, each defined name holds its test with count defaulted to 1, tested count 0 and enabled; other tests unchanged |
| ProxyFacade.AddedTestsUnique | proxy.js:598 | registering keeps test names unique |
| ProxyFacade.FreshTestRunsNext | proxy.js:598-603 | a freshly registered test runs on the next stored record |
| ProxyFacade.NoneEnabledRunsNothing | proxy.js:621-629 | with every test disabled a record runs no test |
| ProxyFacade.NewProxyServer | proxy.js:376-403 | throws exactly for an old Node or a falsy port; otherwise a valid INIT proxy with an empty recorder, no rules, null filters and no tests |
| ProxyFacade.ProxyServer.constructor | proxy.js:376-393 | host 127.0.0.1, the given port, not stopping |
| ProxyFacade.ProxyServer.Throttle | proxy.js:395-397 | the core's throttle: throws exactly for a rate below 1 |
| ProxyFacade.ProxyServer.SetForceProxyHttps | proxy.js:440-446 | the handler's flag is set |
| ProxyFacade.ProxyServer.AddRuleOnRequest | proxy.js:461-463 | the rule is stored under its name |
| ProxyFacade.ProxyServer.RemoveRuleOnRequest | proxy.js:465-467 | the name is deleted |
| ProxyFacade.ProxyServer.AddRuleOnResponse | proxy.js:482-484 | the rule is stored under its name |
| ProxyFacade.ProxyServer.RemoveRuleOnResponse | proxy.js:486-488 | the name is deleted |
| ProxyFacade.ProxyServer.AddRuleOnForceHttpsBeforeRequest | proxy.js:503-505 | the rule is stored under its name |
| ProxyFacade.ProxyServer.RemoveRuleForceHttpsBeforeRequest | proxy.js:507-509 | the name is deleted |
| ProxyFacade.ProxyServer.AddRuleOnError | proxy.js:524-526 | the rule is stored under its name |
| ProxyFacade.ProxyServer.RemoveRuleOnError | proxy.js:528-530 | the name is deleted |
| ProxyFacade.ProxyServer.AddRuleOnConnectError | proxy.js:545-547 | the rule is stored under its name |
| ProxyFacade.ProxyServer.RemoveRuleOnConnectError | proxy.js:549-551 | the name is deleted |
| ProxyFacade.ProxyServer.AddFilter | proxy.js:572-574 | throws a TypeError exactly while the filter object is null; otherwise stores the filter |
| ProxyFacade.ProxyServer.RemoveFilter | proxy.js:576-578 | throws a TypeError exactly while the filter object is null; otherwise deletes the name |
| ProxyFacade.ProxyServer.RemoveAllFilters | proxy.js:580-582 | the filter object becomes `{}` |
| ProxyFacade.ProxyServer.AddTests | proxy.js:584-609 | the tests become `AddedTests` of the definitions; nothing changes for none |
| ProxyFacade.ProxyServer.SetTestEnabled | proxy.js:611-623 | throws a TypeError exactly for an unregistered name; otherwise only that test's `enabled` changes, keys and order kept |
| ProxyFacade.ProxyServer.SetAllTestsEnabled | proxy.js:615-629 | every test keeps its place and changes only `enabled` |
| ProxyFacade.ProxyServer.SetEndAfterTestsComplete | proxy.js:631-637 | the flag is set |
| ProxyFacade.ProxyServer.Start | proxy.js:652-695 | resets the stop guard and stores the options; one completion check per start with a truthy `endAfterTestsComplete`; the core starts exactly when the system proxy is on; otherwise its status, listener, socket index, pool and events are untouched; a rejected start emits nothing |
| ProxyFacade.ProxyServer.Stop | proxy.js:711-724 | only the first call after a start shuts down: shutdown calls, cache cleared unless the close failed, CLOSED on success; a failed close keeps the cache, the status and the listener; without a server the status is kept; later calls change nothing |
| ProxyFacade.ProxyServer.CompletionTick | proxy.js:639-650 | stops the proxy exactly when no tests are left; while tests remain, the guard, the shutdown calls, the status, the listener and the cache are untouched |
| ProxyFacade.StopTwice | proxy.js:711-724 | two calls to `stop` after a start shut down once |

## Left out

- lib/requestHandler.js is not part of this model.
  - Its rule objects, `conns` and `cltSockets` are fields of `RequestHandler`.
  - Its use of the dispatchers is modelled only through `RuleDispatch`.
- The HTTP(S) servers, `listen`, the WebSocket server and the certificate
  manager are not code here.
  - `start` takes the certificate lookup's outcome.
  - `close` takes the listener's close outcome.
  - A failing `listen` does not fail `start` in the source either.
- `checkRootCertificate`, the network adaptor session, the system proxy
  calls, `finalizeTests`, `mocha.run` and `process.exit` are left out.
  - They are I/O.
  - `start` reads the system proxy state as a parameter.
- Timers are left out: the `duration` timeout, the completion interval, the
  log timestamps and the test durations.
  - The interval's callback is `CompletionTick`.
- Log messages of the core, the facade and the recorder are left out. So are
  colours and the rule summary coroutine. Only the logger's decision is
  modelled.
- Proxy.ProxyCore.Start: whether the core has an 'error' listener is a
  parameter. No code in this model registers one, so the facade starts its
  core without one. Where the exception from the unheard emit goes after it
  leaves the certificate callback is not modelled.
- The nedb datastore is created with a file name and without `autoload`,
  and lib/recorder.js never calls `loadDatabase`. nedb queues every command
  until the store is loaded. The model assumes a loaded store: inserts,
  updates and queries (`getRecords`, the re-read of `emitUpdate(id)`, the
  callback of `updateExtInfo`) take effect on the map at once. Whether some
  other part of the repository loads the store is not part of this model.
- Recording.FramesReadBack and Recording.WrittenBodyReadsBack: the
  unawaited `fs.appendFile`, `fs.writeFile` and database writes are modelled
  as finishing at the call, in call order. The frames are read back in
  append order, and a written body reads back, only under that assumption.
- `getServerState` reads `core.status` and is not a separate member.
- `emitUpdate(id)` without a record re-reads the database; it is modelled
  directly on the map. `getSingleRecord`, `getSummaryList` and
  `getDecodedBody` are not modelled: charset decoding and content sniffing
  are left out.
- The recorder's `initializeMocha` is left out, beyond the empty report.
  Report titles, contexts and Mocha's other fields are left out.
  `JSON.stringify` of headers and frames is left out.
- JavaScript's own key order is not modelled. It lists integer-like keys
  first, in numeric order. Objects here keep insertion order for every key.
- Rule, filter and test functions are total functions of their arguments.
  - A rule or filter that throws is not modelled.
  - A test that throws is not modelled. In the source its `catch` block
    refers to an uninitialised `test` variable.
- `addTests` with a definition lacking a `test` function, or with a
  non-numeric `testCount`, is not modelled. `testCount` is an integer, and 0
  stands for every falsy count.
- The `isMandatoryAlways` and `completedTests` properties are left out; they
  are only logged or initialised.
- Sharing is not modelled: a registered test is the caller's definition
  object in the source.
- An object-typed `config.type` is treated as not HTTPS. The regular
  expression test of its string form is not modelled.
- `socketPool` is undefined before the first `start`; it is modelled as
  empty.
- The global `_throttle` is the core's `throttleRate` field.
- Numbers are integers plus NaN. Fractions, infinities and -0 are not
  distinguished.

## Findings

| source | as written | input that shows it | evidently intended | confidence | as-written member | corrected member |
|---|---|---|---|---|---|---|
| lib/recorder.js:517 | `filepath.indexOf(cachePath) !== 0` accepts any path that starts with the cache path's characters | cache directory `/tmp/cache_r1`, file name `../cache_r12/x`: accepted as `/tmp/cache_r12/x` | only paths inside the cache directory are accepted (a prefix ending at a separator) | not executed | CacheFiles.AsWrittenEscapes | CacheFiles.CacheFile |
| proxy.js:534-536 | `ruleResult = rules[ruleName](req, error)` assigns an undeclared variable in strict mode, which throws a ReferenceError | any rule registered with `addRuleOnConnectError`, even one that answers | the first truthy answer, as in the other four dispatchers | not executed | RuleDispatch.ConnectErrorAnswerLost | RuleDispatch.OnConnectErrorIntended |
