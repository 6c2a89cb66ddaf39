# Apple Music downloader plugin: a Dafny model of its core

This project models the logic at the heart of a chat-bot plugin that downloads songs from
Apple Music, and proves properties of that model. The plugin runs a pool of account-bound
decryption workers behind a gRPC front end, queues download requests from chat users, and
turns each download into decrypted, tagged and named files. Most of the repository drives
Docker, HTTP, gRPC and the chat platform. The model covers the sequential rules under that
glue, in three groups.

**The wrapper manager** (`services/manager/*`):

- `WrapperProxy`: the worker's length-prefixed frames, with round trips for the decrypt
  handshake, the per-sample frames and the M3U8 request, and the classification of the
  M3U8 reply. The proxy is a class whose session and activity flags its methods update.
- `InstanceManager`: the instance pool, indexed by id and by username, in insertion order.
  It is a class that keeps both indexes consistent through add, remove, cleanup and
  shutdown.
- `Dispatcher`: worker selection. A worker that served the same song is preferred, then an
  idle worker, then any active one. The random pick is a nondeterministic choice.
- `HealthMonitor`: probe classification and the history capped at 100 results. Also the
  count of consecutive failures, the bounded recovery with doubling back-off, and the state
  accessors.
- `LoginHandler`: the login and 2FA session state machine with its two indexes.
- `GrpcServer`: the servicer's reply rules for Status, Login, Logout, Decrypt, M3U8 and
  Lyrics.
- `RetryUtils`: the retry delay schedule, the retry loop and the circuit breaker.
- `Metrics`: the counter, gauge and histogram registries, and the percentile update.
- `RegionDetector`: the region registry and the availability cache.

**The download queue** (`services/queue/*`, and the older `services/queue.py`):

- `QueueTask`: the task status state machine and its transition table.
- `QueueStorage`: the priority-then-FIFO store, with an id index and a user index, a
  capacity and a duplicate rule.
- `QueueStats`: the statistics collector.
- `QueueEvents`: the event-subscription registry.
- `QueueProcessor`: the processor that maps a download's outcome to a status.
- `QueueFacade`: the package's queue object.
- `LegacyQueue`: the older single-file queue. Python's import rules shadow it with the
  package, but it is complete, so it is modelled as a class of its own.

**The download pipeline** (`core/*`, parts of `services/downloader.py`, `handlers/*`):

- `Rip`: the decrypt-key resolution and the per-sample decrypt bookkeeping. Also the
  fast path that groups samples by key and scatters the decrypted samples back to their
  positions, and the decryption manager's task registry.
- `CoreTypes`: the codec key suffixes, the codec patterns and the parent-done counter.
- `CoreUtils`: filename sanitising, suffix rules, LRC timestamps, chunking and codec
  selection.
- `Mp4`: codec fallback, key selection and sample numbering.
- `Metadata`: tag filtering and encoding.
- `Url`: the canonical link parser.
- `Cli`: the recursive configuration merge, the schema defaults and the command-line
  overrides.
- `Config`: plugin configuration parsing and the download-path resolution.
- `Downloader`: the downloader's generated configuration and the YAML quoting pass. It also
  covers the download cache, the quality directories and the service's URL parser
  (`UrlParser`).
- `Account`: e-mail masking and 2FA routing.
- `DownloadHandler`: quality resolution, the song-only gate, the interactive session and
  the per-user pending limit.

`Wrappers`, `Text`, `Json`, `Seqs` and `Sorting` hold shared datatypes and helpers:

- `Option` and `Result`;
- the parts of Python's `str` API the code relies on: strip, split, lower and decimal
  rendering;
- JSON-shaped values;
- duplicate-freedom and removal on sequences;
- stable insertion sort.

The model takes the source's own form:

- Objects whose fields the source updates in place are classes. Their methods carry
  `modifies` clauses and state the whole new state.
- Loops are methods with `while` loops, proved against specification functions.
- Pure code is functions, with lemmas about them.
- I/O, clocks, randomness, sockets, HTTP and external tools are parameters. A clock is a
  number. A socket is a scripted list of replies. A file is its decoded contents, or none
  when it is missing. A callback is a flag, or an outcome per call.

All integers are unbounded. The source is Python, so none of its arithmetic wraps. The
manager modules (Dispatcher, InstanceManager, HealthMonitor, LoginHandler, RegionDetector,
GrpcServer) take the clock as a whole number of seconds. The queue modules (LegacyQueue,
QueueTask, QueueStats, QueueProcessor, QueueFacade), Downloader, RetryUtils and Metrics keep
times, delays, durations and rates as `real`.

## Notes on the source

- `core/grpc/manager.py:180` treats a Login reply with code 2 as "2FA needed". The servicer
  sends code 1 for that case (`services/manager/grpc_server.py:113-119`). So a client using
  that manager never sees the prompt: it keeps waiting (`GrpcServer.PendingCodeNotRecognised`).
  This is recorded, not corrected: the servicer is modelled as written.
- `handlers/queue_commands.py:64` calls `cancel_task(task_id, sender_id)`. That is the
  signature of the older queue (`services/queue.py:342-344`). The package's queue only
  takes the task id (`services/queue/__init__.py:119`). Both queues are modelled with
  their own signatures.
- The interactive quality table of `handlers/download.py:85-93` has an entry for `" "`.
  The message is stripped first, so that entry is never looked up
  (`DownloadHandler.InteractiveQualitySpec`).
- `_mask_email` raises `IndexError` on an address whose local part is empty, such as
  `"@example.com"` (`handlers/account.py:268`). The model returns that error
  (`Account.MaskAddress`).

## Model

Several pure functions that define an operation carry no contract of their own, because
their meaning is stated by the members in the table that use them: the function's lemmas, or
the method proved to compute it. They are:
`Account.MaskEmail` (`MaskPlain`, `MaskAddress`, `MaskKeepsLength`, `MaskIdempotent`),
`Account.TwoFactor` (`TwoFactorStores`, `BadCodesRefused`, `AccountHandler.HandleTwoFactorCode`),
`Account.RouteLogin` (`RouteLoginSpec`, `AccountHandler.HandleLogin`),
`Downloader.GeneratedConfig` (`GenerateConfig`, `ForeignSections`, `GeneratedMapped`,
`GeneratedUnmapped`, `GeneratedPorts`, `PortEntries`),
`Downloader.ProcessConfig` (`ProcessConfigKeepsValues`, `ProcessConfigQuotes`),
`Downloader.CacheKey` (`CacheKeyInjective`, `RecordThenReuse`, `RecordKeepsOthers`),
`Downloader.Pruned` (`PrunedFresh`, `PrunedStable`, `LoadCache`),
`Downloader.RecordDownload` (`RecordThenReuse`, `RecordKeepsOthers`),
`Downloader.SavePathsOf` (`SavePathsDefault`, with `SavePath`),
`DownloadHandler.DirectQuality` (`DirectQualitySpec`, `DirectQualityCase`),
`DownloadHandler.Step` (`StepKeepsGood`, `StepDownloads`, `CancelStops`, `UrlStep`,
`InteractiveSession.Receive`),
`CoreUtils.FindBestCodec` (`FindBestCodecSpec`, `FindBestCodecStable`, `AlacStreamChosen`),
`CoreUtils.TtmlToLrc` (`TtmlConvent`, `MissingBeginBlanks`, `MissingMetadataRaises`),
`Mp4.ChoosePlaylist` (`ChoosePlaylistSpec`, `Media`),
`Metadata.ToTags` (`ToTagsFails`, `ToMutagenTags` and the `…Tag` lemmas) and
`UrlParser.Parse` (`ParseSound`, `ParseSongs`, the `Parse…Link` lemmas and `DisplayOfParsed`).

| member | source | states |
|---|---|---|
| WrapperProxy.Utf8Ascii | services/manager/wrapper_proxy.py:106-107 | an ASCII adam id encodes to exactly one byte per character, each the character's code |
| WrapperProxy.U8Prefixed | services/manager/wrapper_proxy.py:109-116 | a `[u8 len][bytes]` field exists exactly when the length fits in one byte (`bytes([n])` raises otherwise) |
| WrapperProxy.Handshake | services/manager/wrapper_proxy.py:104-116 | the context message is defined iff both UTF-8 encodings are shorter than 256 bytes, and is then `[len adam][adam][len key][key]` |
| WrapperProxy.U32LERoundTrip | services/manager/wrapper_proxy.py:121 | the little-endian `struct.pack('<I', n)` encoding decodes back to n for every n below 2^32 |
| WrapperProxy.SampleFrame | services/manager/wrapper_proxy.py:119-123 | a sample frame is four length bytes followed by the sample itself |
| WrapperProxy.HandshakeRoundTrip | services/manager/wrapper_proxy.py:104-116 | the worker-side parse of the context message returns the encoded adam id and key and leaves the following bytes untouched |
| WrapperProxy.SampleFrameRoundTrip | services/manager/wrapper_proxy.py:119-123 | a sample frame parses back to the sample, leaving what follows |
| WrapperProxy.FramesSnoc | services/manager/wrapper_proxy.py:189-195 | sending one more sample appends exactly its frame to the stream |
| WrapperProxy.FramesRoundTrip | services/manager/wrapper_proxy.py:189-204 | the frames of a batch session parse back to exactly the samples, in input order |
| WrapperProxy.SingleRequestRoundTrip | services/manager/wrapper_proxy.py:104-123 | a single-sample request is the handshake followed by one frame that parses back to the sample |
| WrapperProxy.ClassifyM3u8Line | services/manager/wrapper_proxy.py:262-270 | a reply line is a success iff its stripped text starts with `http`, the URL is then the stripped line, otherwise the fixed failure reply |
| WrapperProxy.Proxy.Start | services/manager/wrapper_proxy.py:55-61 | a session is created only when none exists; a failing session constructor propagates and changes nothing |
| WrapperProxy.Proxy.Stop | services/manager/wrapper_proxy.py:63-74 | after stop there is no session and the proxy is inactive |
| WrapperProxy.Proxy.SetLastAdamId | services/manager/wrapper_proxy.py:76-82 | the getter returns the id just set; the session flags are unchanged |
| WrapperProxy.Proxy.Decrypt | services/manager/wrapper_proxy.py:84-148 | inactive gives "Proxy not active"; success iff connected, the handshake fits, the length fits u32 and the read completes (a zero-length sample completes at once unless the worker has dropped the connection; a longer one needs that many bytes from the worker); on success the bytes sent are handshake then frame and the data is the worker's first `len(sample)` bytes (empty for an empty sample); each failure's error; an id too long for a u8 prefix sends nothing and a key too long sends only the id prefix; a dropped connection makes the call raise, through `wait_closed()` in the `finally`, with the socket error's text |
| WrapperProxy.Proxy.DecryptAll | services/manager/wrapper_proxy.py:150-229 | one handshake then one frame per sample in input order; success iff every frame fits and every read completes (a zero-length read unless the connection has dropped); chunks are the replies in input order, each of its sample's length; failures return an empty list; an id too long for a u8 prefix sends nothing, a key too long sends only the id prefix, as in `decrypt`; the call raises, with the socket error's text, exactly when the batch stops at a dropped connection |
| WrapperProxy.ExchangeFrames | services/manager/wrapper_proxy.py:189-204 | the per-sample loop succeeds iff every sample fits and every read completes (a zero-length read completes unless the worker has dropped the connection, whose recorded error the reader raises first), and then the stream is exactly the frames and the chunks the replies; it reports a drop exactly when the first failing read is a dropped connection, with that error |
| WrapperProxy.ReadBytes | services/manager/wrapper_proxy.py:127-130 | a completed `readexactly(n)` returns exactly n bytes, the first n the worker sent |
| WrapperProxy.ZeroLengthSampleDecrypts | services/manager/wrapper_proxy.py:127-138 | a started proxy decrypts an empty sample with a silent worker: success, empty data, no error |
| WrapperProxy.ZeroLengthBatchReads | services/manager/wrapper_proxy.py:189-204 | in the batch loop an empty sample completes at once while the worker is quiet, with an empty chunk, and the next sample is read as usual |
| WrapperProxy.ZeroLengthSampleDropped | services/manager/wrapper_proxy.py:127-148 | an empty sample on a connection the worker has reset fails with the reset's text, and the call raises |
| WrapperProxy.DroppedBatchStops | services/manager/wrapper_proxy.py:189-229 | a connection dropped at an empty sample's read ends the batch there with the socket error and no chunks, and the call raises; the next sample is never read |
| WrapperProxy.DropsAtFirstFailure | services/manager/wrapper_proxy.py:189-204 | the batch stops at its first failing read, so a drop can only be reported there |
| WrapperProxy.Proxy.GetM3u8 | services/manager/wrapper_proxy.py:237-285 | one attempt: inactive, refused and failing connections and an id too long for a u8 prefix give their errors; success iff connected, the id fits and the first reply line stripped starts with `http`, the URL being that line; the request is `[len][adam id]`; the attempt raises exactly when the worker dropped the connection, with the socket error's text, and otherwise returns what `M3u8Attempt` says |
| WrapperProxy.Proxy.GetM3u8Retrying | services/manager/wrapper_proxy.py:231-285 | `get_m3u8` with its decorator (3 attempts, 0.5 s, exponential, retrying `ConnectionError` and timeouts), one connection per attempt: the run is the retry run of the attempts, it always ends in a value or an exception after 1 to 3 calls, and it succeeds iff some attempt serves a URL after only retried drops |
| WrapperProxy.M3u8RetryOk | services/manager/wrapper_proxy.py:231-285 | success iff the proxy is active and attempt 1, 2 or 3 serves an `http` line with every earlier attempt dropped by a retried error; the URL is then that attempt's stripped line; a returned failure has no URL and a success has no error |
| WrapperProxy.M3u8RetryEnds | services/manager/wrapper_proxy.py:231-236 | from any attempt, the decorated call ends with a value or an exception, never with nothing: no reply is flagged for retry |
| WrapperProxy.M3u8ThreeDropsRaise | services/manager/wrapper_proxy.py:231-236 | three drops by retried errors raise the third error after 3 calls and sleeps of 0.5 s and 1 s |
| WrapperProxy.M3u8OtherDropRaises | services/manager/wrapper_proxy.py:231-236 | a drop by an error outside `ConnectionError` and timeouts raises at once after 1 call, with no sleep |
| WrapperProxy.M3u8FirstReturns | services/manager/wrapper_proxy.py:237-280 | an attempt that returns (inactive, refused, failed, timed out, served) ends the call with that reply after 1 call |
| WrapperProxy.Proxy.HealthCheck | services/manager/wrapper_proxy.py:350-363 | healthy iff the proxy is active and the probe answered status 200 |
| InstanceManager.WrapperInstance.UpdateLastUsed | services/manager/instance_manager.py:41-43 | the last-used time becomes the given clock value; status, error and no-restart flag unchanged |
| InstanceManager.InstanceManager.constructor | services/manager/instance_manager.py:53-58 | a new manager is empty and its indexes are consistent |
| InstanceManager.InstanceManager.AddInstance | services/manager/instance_manager.py:60-106 | an existing derived id returns the existing instance and changes nothing; a failing proxy start returns the failure message and changes nothing; otherwise a fresh active instance with an active proxy is registered under its derived id in both indexes; consistency is preserved |
| InstanceManager.InstanceManager.RemoveInstance | services/manager/instance_manager.py:108-127 | succeeds iff the id is registered; then the proxy is stopped and the id leaves the instance map, the username index and the order; otherwise "实例不存在" and nothing changes |
| InstanceManager.InstanceManager.GetInstance | services/manager/instance_manager.py:133-135 | the instance registered under the id, or null exactly when there is none |
| InstanceManager.InstanceManager.GetInstanceByUsername | services/manager/instance_manager.py:137-142 | null exactly when the username is unmapped or mapped to an empty id, otherwise an instance with that username |
| InstanceManager.InstanceManager.ListInstances | services/manager/instance_manager.py:144-146 | every instance once, in insertion order |
| InstanceManager.InstanceManager.ClientCountMatchesRegions | services/manager/instance_manager.py:148-158 | the client count is the number of active instances, and it is zero exactly when the region set is empty |
| InstanceManager.InstanceManager.HealthCheckAll | services/manager/instance_manager.py:160-179 | one entry per instance that has a proxy, true iff that proxy is active and answers 200 |
| InstanceManager.InstanceManager.CollectIdle | services/manager/instance_manager.py:183-189 | the ids to remove, each once, are exactly the instances idle for longer than the limit and not marked no-restart |
| InstanceManager.InstanceManager.RemoveAll | services/manager/instance_manager.py:191-193 | removing the listed ids one by one drops exactly those ids and keeps the indexes consistent |
| InstanceManager.InstanceManager.CleanupInactive | services/manager/instance_manager.py:181-193 | exactly the idle, restartable instances are removed; every other instance is kept unchanged |
| InstanceManager.InstanceManager.ShutdownAll | services/manager/instance_manager.py:195-201 | every instance is removed and both indexes end empty |
| InstanceManager.InstanceManager.DistinctCardFromOrder | services/manager/instance_manager.py:56-57 | the insertion order lists each registered id exactly once |
| InstanceManager.ConsistentAdd | services/manager/instance_manager.py:98-99 | registering a new instance under its derived id in the map, the order and the username index keeps them consistent |
| InstanceManager.ConsistentRemove | services/manager/instance_manager.py:122-124 | dropping an instance from the map, the order and the username index keeps them consistent |
| Dispatcher.Actives | services/manager/dispatcher.py:111 | keeps exactly the active instances of the list |
| Dispatcher.Idles | services/manager/dispatcher.py:125-128 | keeps exactly the instances whose proxy has not served any adam id yet |
| Dispatcher.FirstServing | services/manager/dispatcher.py:117-122 | the position of the first instance whose proxy last served the adam id, or None when none did |
| Dispatcher.ChooseFrom | services/manager/dispatcher.py:116-143 | over a non-empty active list: the sticky instance when there is one, else an idle one when there is one, else any member |
| Dispatcher.CountsBalance | services/manager/dispatcher.py:155-171 | idle plus busy counts equal the active count, which is at most the total |
| Dispatcher.DecryptDispatcher.ActiveList | services/manager/dispatcher.py:108-111 | every listed instance is active and registered in the manager |
| Dispatcher.DecryptDispatcher.SelectInstance | services/manager/dispatcher.py:105-143 | null exactly when no instance is active; otherwise an active registered instance chosen by the three strategies in order |
| Dispatcher.DecryptDispatcher.Dispatch | services/manager/dispatcher.py:45-103 | no active instance gives "没有可用的 wrapper 实例"; otherwise the chosen instance's last-used time is updated, the result carries its id and the proxy's decrypt outcome (success iff the read completes, which a dropped connection never does, even for an empty sample), a raised proxy call becomes a failure with the exception's text, and no other instance changes |
| Dispatcher.DecryptDispatcher.GetStatistics | services/manager/dispatcher.py:155-171 | the total is the number of registered instances and idle plus busy equals active, at most the total |
| HealthMonitor.TrailingFailures | services/manager/health_monitor.py:225-238 | the number of trailing non-HEALTHY results: all of them are non-HEALTHY and the one before, if any, is HEALTHY |
| HealthMonitor.TrailingFromSuffix | services/manager/health_monitor.py:232-236 | counting back to the last HEALTHY result (or the start) gives the trailing failures |
| HealthMonitor.ClassifyCountsHistory | services/manager/health_monitor.py:179-223 | with a proxy, the new result's failure count equals the trailing failures once it is appended (0 after a true answer, previous + 1 otherwise); HEALTHY iff the probe answered true, DEGRADED iff it answered false, UNHEALTHY on timeout or exception |
| HealthMonitor.MissingProxyRecordsZero | services/manager/health_monitor.py:172-177 | a missing proxy gives UNHEALTHY with zero recorded failures |
| HealthMonitor.Recent | services/manager/health_monitor.py:250-252 | the history is cut to (at most) its 100 most recent results, the newest kept |
| HealthMonitor.Decide | services/manager/health_monitor.py:270-294 | the recovery decision: disabled iff recovery is off; give up iff attempts reached the maximum; too soon iff the last recovery is less than 30·2^attempts seconds old; attempt otherwise |
| HealthMonitor.BackoffDoubles | services/manager/health_monitor.py:290 | every counted attempt doubles the back-off interval |
| HealthMonitor.RecoveryOutcomeStatus | services/manager/health_monitor.py:332-372 | a recovery succeeds iff there is a proxy, the restart does not raise and the re-check answers 200, leaving the instance ACTIVE; a raising restart leaves it FAILED; any other failure restores the old status |
| HealthMonitor.HealthyUnhealthyBounded | services/manager/health_monitor.py:396-397 | HEALTHY, UNHEALTHY and DEGRADED counts together never exceed the number of checks |
| HealthMonitor.HealthMonitor.constructor | services/manager/health_monitor.py:49-78 | a new monitor has empty history and recovery tables, no callbacks and is not running |
| HealthMonitor.HealthMonitor.SetRecoveryStartCallback | services/manager/health_monitor.py:87-92 | the recovery-start callback is set and nothing else changes |
| HealthMonitor.HealthMonitor.SetRecoveryCompleteCallback | services/manager/health_monitor.py:94-99 | the recovery-complete callback is set and nothing else changes |
| HealthMonitor.HealthMonitor.Start | services/manager/health_monitor.py:101-108 | a second start is a no-op; afterwards the monitor is running and the tables are unchanged |
| HealthMonitor.HealthMonitor.Stop | services/manager/health_monitor.py:111-123 | the monitor ends stopped and the tables are unchanged |
| HealthMonitor.HealthMonitor.GetConsecutiveFailures | services/manager/health_monitor.py:225-238 | the backward loop returns the trailing failures of the instance's history (0 for none) |
| HealthMonitor.HealthMonitor.CheckInstanceHealth | services/manager/health_monitor.py:165-223 | the result is the classification of the probe outcome with the instance's trailing failures |
| HealthMonitor.HealthMonitor.GetHealthStatus | services/manager/health_monitor.py:374-380 | None exactly for an empty history, otherwise the last recorded status |
| HealthMonitor.HealthMonitor.GetHealthMetrics | services/manager/health_monitor.py:382-412 | total checks is the history length; the healthy and unhealthy counts are the numbers of HEALTHY and UNHEALTHY results in the history, together at most the total; consecutive failures and the last check are those of the last result (0 and none for an empty history); recovery attempts are 0 for an empty history; the last status is the status accessor's |
| HealthMonitor.CountStatusIndices | services/manager/health_monitor.py:396-397 | the recursive count of results with a status equals the number of positions in the history holding that status |
| HealthMonitor.HealthMonitor.GetAllMetrics | services/manager/health_monitor.py:414-419 | one entry per instance with a history, each that instance's metrics |
| HealthMonitor.HealthMonitor.PerformRecovery | services/manager/health_monitor.py:332-372 | the outcome and message of the recovery, the instance's status after it, the proxy active iff the restart did not raise; no other instance or proxy changes |
| HealthMonitor.HealthMonitor.TriggerRecovery | services/manager/health_monitor.py:266-330 | the decision is the back-off rule; without an attempt no counter, time or notice changes, and giving up marks the instance FAILED with no_restart; an attempt counts and times it, notifies the callbacks that are set, and resets the count on success |
| HealthMonitor.HealthMonitor.AttemptRecovery | services/manager/health_monitor.py:296-330 | the attempt branch: start notice, recovery, count incremented (reset to 0 on success), time recorded, complete notice |
| HealthMonitor.HealthMonitor.RecordAttempt | services/manager/health_monitor.py:314-328 | the attempt is counted and timed, the complete callback is notified if set, and a success resets the count to 0 |
| HealthMonitor.HealthMonitor.MarkFailed | services/manager/health_monitor.py:281-285 | a registered instance becomes FAILED with no_restart set; no other instance changes |
| HealthMonitor.HealthMonitor.ProcessHealthResult | services/manager/health_monitor.py:240-264 | the result is appended to its instance's history, which keeps the 100 most recent; recovery is triggered iff the result is UNHEALTHY with at least the threshold of failures, and otherwise nothing else changes |
| LoginHandler.LoginSession.constructor | services/manager/login_handler.py:70-75 | a new session waits for the password step, with no error and no code |
| LoginHandler.LoginSession.RecordPasswordStep | services/manager/login_handler.py:139-160 | a successful add completes the session; a failure whose message mentions "2FA", "双因素" or "验证码" waits for a code; any other failure fails the session with the message |
| LoginHandler.LoginSession.RecordCodeStep | services/manager/login_handler.py:185-199 | a successful add completes the session, a failure fails it with the message |
| LoginHandler.LoginHandler.constructor | services/manager/login_handler.py:42-47 | a new handler has no sessions and no username mappings |
| LoginHandler.LoginHandler.CurrentSession | services/manager/login_handler.py:62-64 | the session the username is mapped to, when that session is still registered |
| LoginHandler.LoginHandler.StartLogin | services/manager/login_handler.py:49-85 | an already registered username is refused; a session waiting for a code is reported with its id and nothing changes; otherwise exactly one new PENDING_PASSWORD session is added under the fresh id and becomes the username's, all other sessions unchanged |
| LoginHandler.LoginHandler.Provide2FACode | services/manager/login_handler.py:87-113 | no mapped session, a stale mapping and a session in the wrong state each give their message; the code is stored iff the username's session waits for one; no state or error changes |
| LoginHandler.LoginHandler.GetSessionStatus | services/manager/login_handler.py:115-120 | the registered session, or null exactly when the id is unknown |
| LoginHandler.LoginHandler.PerformLogin | services/manager/login_handler.py:122-166 | an unknown session changes nothing; otherwise the manager's add outcome decides the session's new state (completed, waiting for a code, or failed with the message) and only this session changes |
| LoginHandler.LoginHandler.ContinueLoginWith2FA | services/manager/login_handler.py:168-205 | attempted iff the session exists with a non-empty code; then the add outcome completes or fails the session, and only this session changes |
| LoginHandler.LoginHandler.RegisteredIsFound | services/manager/login_handler.py:57-58 | once the username is mapped to its derived id, the username lookup finds the instance |
| LoginHandler.LoginHandler.ReleaseCompleted | services/manager/login_handler.py:144-150 | the delayed clean-up drops the session and the username's mapping |
| LoginHandler.LoginHandler.Expired | services/manager/login_handler.py:213-216 | exactly the sessions older than the maximum age |
| LoginHandler.LoginHandler.CleanupExpiredSessions | services/manager/login_handler.py:207-222 | removes exactly the expired sessions, whatever their state, and their usernames' mappings |
| GrpcServer.StartReplyCode | services/manager/grpc_server.py:113-125 | the code of a reply to a password frame: 1 iff the message mentions "2FA" or "双因素", else 0 on success and -1 on failure |
| GrpcServer.StartReplyCodes | services/manager/grpc_server.py:113-119 | a submitted login is answered 0 and a session waiting for its code is answered 1 |
| GrpcServer.PendingCodeNotRecognised | core/grpc/manager.py:170-188 | the client asks for the code only on reply code 2, so on the servicer's code-1 reply it neither asks nor finishes |
| GrpcServer.LyricsInstance | services/manager/grpc_server.py:311-320 | the first active instance whose region equals the request's ignoring case, else the first active instance |
| GrpcServer.FirstRegion | services/manager/grpc_server.py:313-316 | the position of the first instance whose region matches ignoring case, or None when none does |
| GrpcServer.LyricsOutcome | services/manager/grpc_server.py:327-387 | success iff both account tokens are truthy, the HTTP status is 200, the body has no "errors" and its first data element carries TTML, which is then the lyrics; every other outcome is code -1 with no lyrics |
| GrpcServer.Servicer.SetReady | services/manager/grpc_server.py:43-45 | the readiness flag takes the given value |
| GrpcServer.Servicer.Status | services/manager/grpc_server.py:47-68 | code 0 "SUCCESS", the manager's regions and active count, the readiness flag, and serving iff some region is served |
| GrpcServer.Servicer.LoginFrame | services/manager/grpc_server.py:84-125 | a frame with a code is answered 0 or -1 by whether the code was stored; a frame without one starts a login, accepted iff the account is not registered and no session waits for a code, and answered by the start-reply code |
| GrpcServer.Servicer.Logout | services/manager/grpc_server.py:131-160 | an unknown username gets -1 "账户不存在" and nothing changes; otherwise its instance is removed and the reply is 0 |
| GrpcServer.Servicer.DecryptFrame | services/manager/grpc_server.py:176-235 | a KEEPALIVE frame is echoed with code 0 and an empty sample, and no instance is used; any other frame goes to the instance the dispatcher picks among the active ones (none iff there is none, with -1 and the dispatcher's "没有可用的 wrapper 实例"), and its reply echoes the frame's identity and is 0 "SUCCESS" with the first `|sample|` bytes the worker sent back exactly when that instance's proxy is active, the connection is accepted, the handshake fits and the read completes (at once for an empty sample, unless the worker has dropped the connection); otherwise -1 with an empty sample |
| GrpcServer.Servicer.DecryptStream | services/manager/grpc_server.py:169-239 | one reply per frame, in order, each answering its frame on its own connection as `DecryptFrame` states: the keepalive echo, or the dispatched worker's outcome |
| GrpcServer.Servicer.M3u8 | services/manager/grpc_server.py:241-287 | no active instance gives -1 "没有可用的实例"; otherwise the first active instance is asked: a missing proxy, an inactive proxy and a first refused connection give their own -1 replies; the reply is 0 iff that proxy is active and some attempt serves an `http` line after only retried drops, and the URL is then that attempt's stripped line; when the decorated call raises (three retried drops, or one other drop) the reply is -1 with the exception's text and no data |
| GrpcServer.Servicer.Lyrics | services/manager/grpc_server.py:289-387 | no active instance gives -1 "没有可用的实例"; otherwise the region-matched instance is chosen and the reply is the lyrics outcome |
| RetryUtils.NextDelay | services/manager/retry_utils.py:92-101 | the next delay is at most max_delay: current·multiplier (exponential), current+initial (linear) or initial (fixed), each capped |
| RetryUtils.CapCommutes | services/manager/retry_utils.py:95-101 | multiplying by at least 1 and capping gives the same as capping first |
| RetryUtils.StepCapCommutes | services/manager/retry_utils.py:92-101 | capping before a step and after it is the same as capping only after it |
| RetryUtils.UncappedGrows | services/manager/retry_utils.py:47-77 | the uncapped delay schedule never drops below the initial delay |
| RetryUtils.DelayIsCappedSchedule | services/manager/retry_utils.py:47-77 | the delay before retry k+1 is the uncapped schedule's k-th value or max_delay, whichever is smaller |
| RetryUtils.UncappedLinear | services/manager/retry_utils.py:96-97 | the linear schedule is initial·(k+1) |
| RetryUtils.UncappedExponential | services/manager/retry_utils.py:94-95 | the exponential schedule is initial·multiplier^k |
| RetryUtils.RetryStep | services/manager/retry_utils.py:49-78 | an attempt that is retried counts one call and one sleep of the current delay, then continues with the next delay |
| RetryUtils.RetryAsync | services/manager/retry_utils.py:38-89 | the attempt loop computes exactly the recursive retry run (result, number of calls, sleeps) |
| RetryUtils.RetryCallsBounded | services/manager/retry_utils.py:49-85 | the function runs at most max_attempts times, at least once when that is positive, with exactly one sleep between consecutive calls |
| RetryUtils.RetrySleepsCapped | services/manager/retry_utils.py:47-77 | the first sleep is initial_delay and every later sleep is at most max_delay |
| RetryUtils.RetryExhaustedRaisesLast | services/manager/retry_utils.py:67-85 | when every attempt raises a retryable exception, all attempts run and the last exception is re-raised |
| RetryUtils.RetryFinalFlaggedReturned | services/manager/retry_utils.py:53-65 | a result flagged for retry on the final attempt is returned as it is |
| RetryUtils.CircuitBreaker.constructor | services/manager/retry_utils.py:107-120 | a new breaker is closed with no failures and no failure time |
| RetryUtils.CircuitBreaker.OnSuccess | services/manager/retry_utils.py:153-159 | the count is cleared and a half-open breaker closes |
| RetryUtils.CircuitBreaker.OnFailure | services/manager/retry_utils.py:161-172 | the failure is counted and timed, and the breaker opens once the count reaches the threshold |
| RetryUtils.CircuitBreaker.Reset | services/manager/retry_utils.py:174-178 | the breaker is closed with no failures and no failure time |
| RetryUtils.CircuitBreaker.Call | services/manager/retry_utils.py:122-151 | an open breaker before its recovery timeout rejects the call and changes nothing; otherwise success closes it with a clear count, an expected exception is counted and re-raised (opening at the threshold), an unexpected one passes through uncounted |
| RetryUtils.Missing | services/manager/retry_utils.py:244 | exactly the required fields absent from the data are listed, and no more entries than required fields |
| RetryUtils.MissingCounts | services/manager/retry_utils.py:244 | each absent field is listed as often as it is required, a present one never |
| RetryUtils.MissingConcat | services/manager/retry_utils.py:244 | the comprehension keeps the given order: the missing fields of a concatenation are those of the first part followed by those of the second |
| RetryUtils.MissingOne | services/manager/retry_utils.py:244 | one required field is listed iff it is not a key of the data |
| RetryUtils.ValidateRequiredFields | services/manager/retry_utils.py:241-249 | valid iff every required field is present, with no message exactly then; otherwise "Missing required fields: " and the missing names joined by ", " |
| Metrics.MakeKey | services/manager/metrics.py:212-218 | no tags gives the bare name; otherwise `name{k=v,...}` with the tags listed in sorted order |
| Metrics.MakeKeyOrderIndependent | services/manager/metrics.py:217 | the key does not depend on the order in which the tags are given |
| Metrics.Increment | services/manager/metrics.py:72-73 | the key's counter (0 when absent) grows by the value and every other counter is unchanged |
| Metrics.CounterIsSumOfIncrements | services/manager/metrics.py:59-73 | a counter equals its start value plus the sum of all increments made under its key |
| Metrics.Window | services/manager/metrics.py:61-83 | a bounded deque after appending holds its last window-size entries |
| Metrics.TrimTimers | services/manager/metrics.py:113-116 | a timer list longer than the window keeps its last window-size entries; with a window of 0 Python's `[-0:]` keeps the whole list |
| Metrics.PercentileIndexMonotone | services/manager/metrics.py:130-132 | a higher percentile never selects an earlier position |
| Metrics.SortReals | services/manager/metrics.py:125-152 | the sort is ascending and a permutation of its input |
| Metrics.Accumulate | services/manager/metrics.py:96-111 | one more call is counted, as a success or a failure, and the average is the total duration over the count |
| Metrics.WithPercentiles | services/manager/metrics.py:120-132 | p50, p95 and p99 are durations of the window, in that order, and no other statistic changes |
| Metrics.AccumulateAllStats | services/manager/metrics.py:96-111 | over any sequence of calls the total count is their number, split into successes and failures; the minimum is attained and below every duration; the maximum (which starts at 0) is above every duration |
| Metrics.HistogramStatsOf | services/manager/metrics.py:144-163 | an empty histogram gives the empty result, otherwise the count is the number of values |
| Metrics.SortedStatsOrdered | services/manager/metrics.py:155-163 | on sorted values min ≤ p50 ≤ p95 ≤ p99 ≤ max, each percentile one of the values |
| Metrics.HistogramStatsBounds | services/manager/metrics.py:144-163 | min and max are values of the histogram bounding all of them, the percentiles lie between in order, and the average is the sum over the count |
| Metrics.SumRealsPermutation | services/manager/metrics.py:159 | the sum does not depend on the order of the values, so summing the sorted list gives the sum of the histogram |
| Metrics.MetricsCollector.constructor | services/manager/metrics.py:55-66 | a new collector has every registry empty |
| Metrics.MetricsCollector.IncrementCounter | services/manager/metrics.py:70-73 | only the tagged key's counter changes, by the increment |
| Metrics.MetricsCollector.SetGauge | services/manager/metrics.py:75-78 | only the tagged key's gauge changes, to the value |
| Metrics.MetricsCollector.RecordHistogram | services/manager/metrics.py:80-83 | only the tagged key's histogram changes: the value is appended and the window kept |
| Metrics.MetricsCollector.RecordOperation | services/manager/metrics.py:89-118 | the operation's timers get the duration and are trimmed to the window, and its stats are the accumulated call with the percentiles of that window; the other registries are unchanged |
| Metrics.MetricsCollector.RecordCall | services/manager/metrics.py:96-116 | the counting part of record_operation: the stats accumulate the call and the timers keep the window |
| Metrics.MetricsCollector.UpdatePercentiles | services/manager/metrics.py:120-132 | only the operation's percentiles change, to those of its timer window |
| Metrics.MetricsCollector.GetCounter | services/manager/metrics.py:134-137 | the counter of the tagged key, 0 when never incremented |
| Metrics.MetricsCollector.GetGauge | services/manager/metrics.py:139-142 | the last value set for the tagged key, or None |
| Metrics.MetricsCollector.GetHistogramStats | services/manager/metrics.py:144-163 | empty for an unknown or empty key, otherwise its statistics with the count of its values |
| Metrics.MetricsCollector.GetOperationStats | services/manager/metrics.py:165-167 | the operation's stats when recorded, whose successes and failures add up to the total |
| Metrics.MetricsCollector.Reset | services/manager/metrics.py:202-209 | every registry is empty |
| RegionDetector.RegionInfo.constructor | services/manager/region_detector.py:17-24 | a new region is available and checked at the given time |
| RegionDetector.AvailableCodes | services/manager/region_detector.py:84-90 | exactly the listed codes whose region is available |
| RegionDetector.GatheredCoversChecked | services/manager/region_detector.py:128-137 | every checked region lands in the available or the unavailable set, and only checked regions do |
| RegionDetector.GatheredDisjoint | services/manager/region_detector.py:128-137 | with each region checked once, no region is both available and unavailable |
| RegionDetector.RegionAnswer | services/manager/region_detector.py:188-199 | no cache entry gives None; a region in the available set gives true, else one in the unavailable set gives false, else None |
| RegionDetector.BuildRegistry | services/manager/region_detector.py:74-76 | one fresh, available region object per listed code, with the listed name, the codes kept in listing order |
| RegionDetector.RegionDetector.constructor | services/manager/region_detector.py:61-76 | every known storefront is registered, available, in the table's order, and the availability cache is empty |
| RegionDetector.RegionDetector.GetAllRegions | services/manager/region_detector.py:80-82 | every registered region once, in insertion order |
| RegionDetector.RegionDetector.GetAvailableRegions | services/manager/region_detector.py:84-90 | exactly the codes whose region is flagged available |
| RegionDetector.RegionDetector.GetRegionName | services/manager/region_detector.py:92-95 | the registered name, or None exactly for an unknown code |
| RegionDetector.RegionDetector.GetCachedAvailability | services/manager/region_detector.py:184-186 | the cached entry, or None exactly when there is none |
| RegionDetector.RegionDetector.IsAvailableInRegion | services/manager/region_detector.py:188-199 | None without a cache entry, otherwise the answer of that entry for the region |
| RegionDetector.RegionDetector.CheckSongAvailability | services/manager/region_detector.py:97-147 | a fresh cached entry is returned unchanged unless a refresh is forced; otherwise each requested region (by default the available ones) is checked, the result sorts them into the two sets and replaces the cache entry |
| RegionDetector.RegionDetector.GatherChecks | services/manager/region_detector.py:120-137 | the loop over the checked regions builds exactly the gathered availability |
| RegionDetector.RegionDetector.SuggestAlternativeRegions | services/manager/region_detector.py:201-215 | nothing when the preferred region is available, else every available region |
| RegionDetector.RegionDetector.ClearCache | services/manager/region_detector.py:217-223 | a non-empty id drops that entry; no id or the empty id clears the whole cache |
| RegionDetector.RegionDetector.GetCacheStats | services/manager/region_detector.py:226-245 | every cached entry counts as fresh or stale, fresh meaning younger than the TTL; the TTL and the number of known regions |
| RegionDetector.RegionDetector.RefreshStaleCache | services/manager/region_detector.py:247-264 | every entry at least a TTL old is checked again over the available regions; fresh entries stay; no entry is added or dropped |
| RegionDetector.RegionDetector.AddCustomRegion | services/manager/region_detector.py:266-270 | an existing code is never overwritten; a new code is appended, available, under its name |
| RegionDetector.RegionDetector.MarkRegion | services/manager/region_detector.py:272-283 | a known code's flag takes the value and its check time is updated; no other region changes |
| QueueTask.StatusPartition | services/queue/task.py:15-37 | every status is terminal or active, never both, and distinct statuses have distinct string values |
| QueueTask.PriorityValue | services/queue/task.py:40-45 | the priority values are 0 to 3 |
| QueueTask.TransitionRules | services/queue/task.py:48-73 | the transition table read as rules: only an active status moves, always to a later stage, and a pending task cannot complete or fail directly |
| QueueTask.TerminalIsFinal | services/queue/task.py:63-86 | a terminal status allows no transition, and every terminal status is reachable from pending through processing |
| QueueTask.RunIsShort | services/queue/task.py:48-73 | along any sequence of allowed transitions no status repeats, so a task changes status at most twice |
| QueueTask.TimesAddUp | services/queue/task.py:147-167 | once a task has started, wait time plus process time equals total time; before that the process time is 0 and the wait time runs from creation |
| QueueTask.RunsBeforeIsSortKeyOrder | services/queue/task.py:199-203 | `__lt__` orders tasks exactly as the storage's sort key (higher priority first, then earlier creation), and it is a strict order |
| QueueTask.TruncateUrl | services/queue/task.py:234-239 | a url within the limit is kept; a longer one is cut to its first limit-3 characters followed by "...", so it has exactly the limit's length; a limit under 3 slices from the end as Python's negative index does |
| QueueTask.DownloadTask.constructor | services/queue/task.py:94-121 | a new task is pending with no times, result or error |
| QueueTask.DownloadTask.TransitionTo | services/queue/task.py:129-137 | a disallowed move raises "Invalid state transition: a -> b" and changes nothing; an allowed one sets the status and records the start time (processing) or the completion time (terminal) |
| QueueTask.DownloadTask.TryTransitionTo | services/queue/task.py:139-144 | true iff the move is allowed, and the task changes only then, as transition_to does |
| QueueStorage.Compare | services/queue/storage.py:32-37 | negative iff the first task's sort key is smaller, positive iff the second's is |
| QueueStorage.InsertPoint | services/queue/storage.py:96-97 | appending and sorting stably puts the task after every task that may precede it and before the first that sorts strictly after it |
| QueueStorage.InsertByKeySorted | services/queue/storage.py:96-97 | the stable insertion into a sorted list keeps it sorted, with the new task after every task that may precede it and before every task that sorts strictly after it |
| QueueStorage.InsertByKeyMembers | services/queue/storage.py:96-97 | the result holds exactly the old tasks and the new one |
| QueueStorage.InsertByKeyDistinct | services/queue/storage.py:89-96 | a fresh id keeps the ids distinct |
| QueueStorage.DeleteAt | services/queue/storage.py:113-141 | the list with one position taken out, the rest in order |
| QueueStorage.DeleteAtSorted | services/queue/storage.py:113-141 | taking a task out keeps the list sorted |
| QueueStorage.DeleteAtMembers | services/queue/storage.py:141 | taking a task out keeps the ids distinct and removes only that task |
| QueueStorage.PositionIn | services/queue/storage.py:141 | the first task with the id, where `list.remove` (comparing ids) takes a task out |
| QueueStorage.PositionOf | services/queue/storage.py:170-175 | the 1-based position of the first task with the id, or -1 exactly when there is none |
| QueueStorage.ListedInsert | services/queue/storage.py:96-99 | inserting a new task within capacity keeps the list sorted, distinct and indexed by id |
| QueueStorage.ListedDelete | services/queue/storage.py:113-115 | taking a task out of the list and the id index keeps them in step |
| QueueStorage.UserIndexedAdd | services/queue/storage.py:99-102 | indexing a new task appends its id to its user's list and keeps the user index in step |
| QueueStorage.UserIndexedDrop | services/queue/storage.py:115-122 | unindexing a task drops its id from its user's list, and the list once empty |
| QueueStorage.FirstDuplicate | services/queue/storage.py:181-197 | the first pending task of the user with that url, in the user's index order: no earlier id names such a task; None exactly when there is none |
| QueueStorage.TaskQueue.constructor | services/queue/storage.py:46-60 | a new queue is empty and consistent |
| QueueStorage.TaskQueue.Push | services/queue/storage.py:83-105 | refused, unchanged, with its message when full, on a known id, or on a pending task of the user with the same url; otherwise inserted in sort-key order, indexed by id and by user, and the message gives its 1-based position |
| QueueStorage.TaskQueue.Index | services/queue/storage.py:96-102 | the accepted push: insertion in order, then the id and user indexes |
| QueueStorage.TaskQueue.Pop | services/queue/storage.py:107-124 | None on an empty queue; otherwise the head, which no queued task precedes, is taken out of the list and both indexes |
| QueueStorage.TaskQueue.Unindex | services/queue/storage.py:113-122 | the task at the position leaves the list and both indexes |
| QueueStorage.TaskQueue.Peek | services/queue/storage.py:126-131 | None exactly on an empty queue, otherwise a queued task no other task precedes, left in place |
| QueueStorage.TaskQueue.Remove | services/queue/storage.py:133-154 | an unknown id gives None and changes nothing; a known one is taken out of the list and both indexes and returned |
| QueueStorage.TaskQueue.Get | services/queue/storage.py:157-159 | the queued task with the id, or None exactly when there is none |
| QueueStorage.TaskQueue.GetUserTasks | services/queue/storage.py:161-164 | exactly the queued tasks of the user |
| QueueStorage.TaskQueue.GetPosition | services/queue/storage.py:166-175 | the scan returns the 1-based position, or -1 |
| QueueStorage.TaskQueue.HasDuplicate | services/queue/storage.py:177-188 | true iff the user has a pending task with that url |
| QueueStorage.TaskQueue.FindDuplicate | services/queue/storage.py:190-197 | the scan returns the first such duplicate |
| QueueStorage.TaskQueue.ListTasks | services/queue/storage.py:204-208 | the whole list without a limit, otherwise the list cut as Python's `[:limit]` does, negative limits included |
| QueueStorage.TaskQueue.Clear | services/queue/storage.py:211-218 | returns the old length and leaves the list and both indexes empty |
| QueueStorage.TaskQueue.RemoveUserTasks | services/queue/storage.py:220-239 | every task of the user is removed and returned in the user's index order, their ids leave the id index and the user leaves the user index |
| QueueStorage.TaskQueue.UnlistAll | services/queue/storage.py:226-234 | each listed id's task is taken out of the list and the id index and returned in the ids' order |
| QueueStorage.UserIndexedRemoveUser | services/queue/storage.py:236-237 | dropping every id of the user and the user's entry keeps the indexes in step |
| QueueStorage.LookupAll | services/queue/storage.py:163-164 | with every id indexed, the lookup is each id's task in turn |
| QueueStats.SuccessRate | services/queue/stats.py:35-41 | 0 when no task completed, failed or timed out; otherwise the completed fraction of those, between 0 and 1, and exactly 1 iff nothing failed or timed out |
| QueueStats.SuccessRateIgnoresCancelled | services/queue/stats.py:38 | cancelled tasks do not change the success rate |
| QueueStats.Bounded | services/queue/stats.py:66-100 | appending to a `deque(maxlen=n)` keeps the newest n entries, the new one last |
| QueueStats.SuccessesSinceCounts | services/queue/stats.py:157-160 | a timing is counted iff it is successful and inside the window |
| QueueStats.SuccessesSinceMonotone | services/queue/stats.py:155-160 | a longer window counts every success a shorter one counts |
| QueueStats.SuccessesSinceAppend | services/queue/stats.py:157-160 | counting successes is additive over concatenation |
| QueueStats.Throughput | services/queue/stats.py:149-163 | 0 with an empty history; a zero window with history divides by zero (None); otherwise the successes in the window per minute, at most 60·len/window |
| QueueStats.RecentTimings | services/queue/stats.py:165-167 | the newest count timings; a count of 0 gives the whole history (Python's `[-0:]`) and a negative count drops that many of the oldest |
| QueueStats.QueueStatsCollector.TotalTasks | services/queue/stats.py:120-125 | the total is at least each counter and zero exactly when all are zero |
| QueueStats.QueueStatsCollector.constructor | services/queue/stats.py:57-74 | a new collector has no history and every counter and total at zero |
| QueueStats.QueueStatsCollector.RecordCompletion | services/queue/stats.py:76-89 | a successful timing joins the bounded history, the completed counter grows by one and the wait and process totals by the task's times |
| QueueStats.QueueStatsCollector.RecordFailure | services/queue/stats.py:91-110 | an unsuccessful timing joins the history; "timeout" and "cancelled" grow their own counters, any other reason the failed counter; the totals grow by the task's times |
| QueueStats.QueueStatsCollector.GetStats | services/queue/stats.py:112-147 | the counters and the caller's queue figures, the total as their sum, the average wait over all tasks and the average process time over completed tasks (0 when there are none), and the throughput |
| QueueStats.QueueStatsCollector.GetRecentTimings | services/queue/stats.py:165-167 | the recent-timings slice of the history |
| QueueStats.QueueStatsCollector.Reset | services/queue/stats.py:169-177 | the history and every counter and total go back to zero |
| QueueStats.ResetStats | services/queue/stats.py:112-177 | after a reset the snapshot is all zeros except the caller's queue figures, and the success rate is 0 |
| QueueStats.HistorySuccesses | services/queue/stats.py:157-160 | while the history is below capacity, recording a timing adds one to the window's successes iff it is a success inside the window |
| QueueEvents.PriorityOrder | services/queue/events.py:48-49 | the order of `__lt__` (higher priority first) is total and transitive, so `sort` is well defined |
| QueueEvents.AddSortedPlacement | services/queue/events.py:91-98 | append then stable sort: the list stays in descending priority, gains exactly the new subscription, which lands after every subscription of its own or higher priority and before the first lower one, and nothing else moves |
| QueueEvents.DropHandler | services/queue/events.py:115-118 | the comprehension keeps exactly the subscriptions of other handlers, and what it drops is the count of `h`'s subscriptions |
| QueueEvents.CountHandlerZero | services/queue/events.py:114-119 | `off` removes nothing iff no subscription of the list belongs to the handler |
| QueueEvents.DropHandlerSorted | services/queue/events.py:115-118 | filtering keeps the descending order |
| QueueEvents.SucceededIsCount | services/queue/events.py:141-153 | `called_count` is the number of handler calls that return, wherever the raising ones fall |
| QueueEvents.OnceSucceeded | services/queue/events.py:139-147 | `to_remove` holds only once-subscriptions of the snapshot, no more than the calls that returned |
| QueueEvents.OnceSucceededSub | services/queue/events.py:137-147 | `to_remove` holds each subscription at most as often as the snapshot |
| QueueEvents.OnceSucceededFrom | services/queue/events.py:141-147 | every entry of `to_remove` is a once-subscription at a snapshot position whose call returned |
| QueueEvents.RemoveEachStep | services/queue/events.py:155-156 | removing a list of subscriptions is removing its first ones, then the next |
| QueueEvents.AfterEmitRemoves | services/queue/events.py:137-156 | after `emit` the list is the snapshot minus exactly the multiset `to_remove`, still in descending priority |
| QueueEvents.AfterEmitKeeps | services/queue/events.py:137-156 | a lasting subscription survives `emit`, so does a once-subscription none of whose calls returned, and no new subscription appears |
| QueueEvents.Emitted | services/queue/events.py:132-158 | `emit` touches no other event's list and no key |
| QueueEvents.EmittedEach | services/queue/events.py:132-158 | emitting one event several times in turn touches no other event's list and no key |
| QueueEvents.NonEmpty | services/queue/events.py:205-210 | the events with a non-empty list, each once |
| QueueEvents.RegistryReplace | services/queue/events.py:115-118 | putting a sorted list of an event's own subscriptions in its slot keeps the registry's invariant |
| QueueEvents.AddSortedEvents | services/queue/events.py:91-98 | an insert keeps every subscription of the list on the same event |
| QueueEvents.RegistryAdd | services/queue/events.py:91-98 | `_add_subscription`, creating the list and recording its event last when new, keeps the invariant |
| QueueEvents.RegistryNew | services/queue/events.py:93-94 | a new key, recorded last in insertion order, keeps the invariant |
| QueueEvents.QueueEventEmitter.constructor | services/queue/events.py:55-57 | a new emitter has no subscriptions |
| QueueEvents.QueueEventEmitter.AddSubscription | services/queue/events.py:91-98 | the event's list becomes the sorted insert of the subscription; a new event is recorded last |
| QueueEvents.QueueEventEmitter.On | services/queue/events.py:59-73 | returns the lasting subscription it registers, inserted by priority |
| QueueEvents.QueueEventEmitter.Once | services/queue/events.py:75-89 | returns the once-subscription it registers, inserted by priority |
| QueueEvents.QueueEventEmitter.Off | services/queue/events.py:100-119 | an unknown event gives 0; no handler empties the list and returns its length; a handler drops exactly its subscriptions and returns how many |
| QueueEvents.QueueEventEmitter.RemoveSubscription | services/queue/events.py:121-130 | true iff an equal subscription was registered, and then its first copy goes; otherwise nothing changes |
| QueueEvents.QueueEventEmitter.Emit | services/queue/events.py:132-158 | an unknown event gives 0; otherwise the count of calls that returned, and the list loses the once-subscriptions whose call returned |
| QueueEvents.QueueEventEmitter.RunHandlers | services/queue/events.py:141-153 | the handler loop computes the call count and `to_remove` |
| QueueEvents.QueueEventEmitter.RemoveSucceeded | services/queue/events.py:155-156 | the clean-up loop removes each entry of `to_remove` in turn |
| QueueEvents.QueueEventEmitter.HasListeners | services/queue/events.py:193-199 | true iff the listener count is positive |
| QueueEvents.QueueEventEmitter.Clear | services/queue/events.py:201-203 | no event has a listener afterwards |
| QueueEvents.QueueEventEmitter.EventsWithListeners | services/queue/events.py:205-210 | exactly the events that have listeners, each once |
| QueueProcessor.OutcomeConsistent | services/queue/processor.py:160-240 | the four handlers agree: a run completes iff the download returned a successful result, every other run records as its reason its final status's value and announces the matching event, every final status is allowed from `PROCESSING`, and only a success leaves the error alone |
| QueueProcessor.TimeoutMessageNames | services/queue/processor.py:221 | the timeout message starts "Task timed out after " and its digits read back as the timeout in seconds |
| QueueProcessor.TaskProcessor.constructor | services/queue/processor.py:31-54 | a new processor keeps its emitter, its collector and its timeout, and is not running, with no current task and no loop |
| QueueProcessor.TaskProcessor.Start | services/queue/processor.py:67-82 | false and no change when already running; otherwise running with a loop, and `PROCESSOR_STARTED` emitted |
| QueueProcessor.TaskProcessor.Stop | services/queue/processor.py:84-114 | true and no change when not running; otherwise not running and without a loop, false with no event iff the loop did not finish in time, `PROCESSOR_STOPPED` emitted when true |
| QueueProcessor.TaskProcessor.Begin | services/queue/processor.py:144-158 | the task becomes current; when it cannot move to `PROCESSING` it is dropped with nothing else changed, otherwise it is processing since `now` and `TASK_STARTED` is emitted |
| QueueProcessor.TaskProcessor.Settle | services/queue/processor.py:168-240 | the task takes its outcome's status and completion time when the move is allowed, the result on success or the outcome's error otherwise; exactly one statistics counter grows, the timing joins the history, and the outcome's event is emitted |
| QueueProcessor.TaskProcessor.Finish | services/queue/processor.py:160-186 | a processing task settles into its outcome's status, the statistics and events follow, no task is current afterwards, and only a cancellation propagates |
| QueueProcessor.TaskProcessor.ProcessTask | services/queue/processor.py:144-186 | a task that cannot start changes nothing else; one that starts ends in its outcome's status with both times set, one more task in the statistics, its result or error set, and only a cancellation propagates |
| QueueProcessor.TaskProcessor.CancelCurrent | services/queue/processor.py:243-253 | true iff a task is current and the loop exists |
| QueueProcessor.ProcessedRun | services/queue/processor.py:150-235 | a processed task's statuses form a valid run from `PENDING` through `PROCESSING` to a terminal status |
| QueueFacade.DownloadQueue.constructor | services/queue/__init__.py:31-62 | new, empty storage, registry and statistics; a stopped processor with no current task exists iff a download function is given |
| QueueFacade.DownloadQueue.SetDownloadFunction | services/queue/__init__.py:53-83 | a given function replaces the processor by a new, stopped one; without one the processor stays |
| QueueFacade.DownloadQueue.IsRunning | services/queue/__init__.py:202-205 | running only when a processor exists |
| QueueFacade.DownloadQueue.Start | services/queue/__init__.py:65-71 | false with nothing emitted without a processor; otherwise the processor ends up running, and the result says whether it was stopped before |
| QueueFacade.DownloadQueue.Stop | services/queue/__init__.py:73-78 | true without a processor; otherwise the processor ends up stopped, and the result is true when it was not running |
| QueueFacade.DownloadQueue.Enqueue | services/queue/__init__.py:86-117 | succeeds iff the storage is not full, the id is new and the user has no pending task for the URL (`has_duplicate`, services/queue/storage.py:177-188); on success the new pending task is inserted in priority order, announced and returned with its 1-based position in the message; on failure nothing changes |
| QueueFacade.DownloadQueue.CancelTask | services/queue/__init__.py:119-138 | the current task is left to `cancel_current`, with nothing changed; an unknown id fails; a queued task leaves the storage, is cancelled when allowed, announced and recorded as one more cancellation |
| QueueFacade.DownloadQueue.CancelUserTasks | services/queue/__init__.py:140-152 | the count is the user's queued tasks, which all leave the storage; each is cancelled when its status allows it and otherwise keeps its status; every other task keeps its status; `TASK_CANCELLED` is emitted once per removed task and the event order is unchanged; the cancelled counter and the total grow by the count and no other counter moves |
| QueueFacade.DownloadQueue.TakeUserTasks | services/queue/__init__.py:142 | the removed tasks are the user's tasks in the order of the user's index (services/queue/storage.py:220-239); the storage keeps exactly the others |
| QueueFacade.DownloadQueue.CancelQueued | services/queue/__init__.py:133-147 | a removed task is cancelled when allowed, `TASK_CANCELLED` is emitted and one cancellation is recorded |
| QueueFacade.DownloadQueue.CancelEach | services/queue/__init__.py:144-147 | every removed task is cancelled when its status allows it and otherwise keeps its status; `TASK_CANCELLED` is emitted once per task, in turn, with the event order unchanged; exactly that many cancellations are recorded |
| QueueFacade.DownloadQueue.GetStats | services/queue/__init__.py:237-244 | the storage's size as pending and queue size, its capacity, and one processing task iff a task is current |
| QueueFacade.DownloadQueue.Clear | services/queue/__init__.py:270-272 | the storage is emptied and the result is how many tasks it held |
| LegacyQueue.Last | services/queue.py:172 | a `deque(maxlen=n)` holds the last n items that went through it |
| LegacyQueue.LastAppend | services/queue.py:172 | trimming after each append holds what trimming once at the end holds |
| LegacyQueue.DownloadTask.constructor | services/queue.py:40-71 | a new task keeps its fields and is pending, not started, not completed, without error and not cancelled |
| LegacyQueue.DownloadTask.Cancel | services/queue.py:94-102 | succeeds iff the task is pending, and then it is flagged cancelled with status CANCELLED and nothing else changes; otherwise nothing changes |
| LegacyQueue.States | services/queue.py:59-71 | the status, error and flags of each task, position by position |
| LegacyQueue.InsertIsStableSort | services/queue.py:300-324 | appending and stably sorting by (−priority, created_at) puts the task after every task that may precede it and before every task that sorts strictly after it, the others in their order, and the list stays sorted |
| LegacyQueue.InsertDistinct | services/queue.py:301-324 | the re-sorted list holds the old tasks and the new one, each once |
| LegacyQueue.DiscardedUpTo | services/queue.py:449-469 | `_get_next_task` stops at a position between its start and the end |
| LegacyQueue.DiscardedUpToSpec | services/queue.py:449-471 | every head thrown away is cancelled or waited longer than `queue_timeout`, and the head it stops at is neither |
| LegacyQueue.TimedOut | services/queue.py:458-462 | no more heads time out than were thrown away |
| LegacyQueue.TimedOutSpec | services/queue.py:453-462 | a task times out into the history iff it is one of the heads thrown away and was not withdrawn |
| LegacyQueue.Indexed | services/queue.py:719-724 | a user's filtered list is no longer than before |
| LegacyQueue.IndexedSpec | services/queue.py:719-724 | the filtered list keeps exactly the ids still indexed |
| LegacyQueue.PruneUsersSound | services/queue.py:719-724 | after pruning every user list is non-empty and lists only indexed ids, no user is added, and no listed id that is still indexed is lost |
| LegacyQueue.PruneUsersUnique | services/queue.py:719-724 | any user index that agrees with the filtering user by user is the pruned one |
| LegacyQueue.DownloadQueue.constructor | services/queue.py:151-194 | a new queue keeps its limits and has no pending task, no current task, no history and empty indexes |
| LegacyQueue.DownloadQueue.FirstDuplicate | services/queue.py:275-284 | the first of the ids that names a pending task with the same URL and quality, and none iff there is no such id |
| LegacyQueue.DownloadQueue.FindDuplicate | services/queue.py:275-284 | the duplicate scan of `enqueue` finds the first duplicate among the user's ids |
| LegacyQueue.DownloadQueue.GetPosition | services/queue.py:326-331 | −1 iff no pending task has the id; otherwise the 1-based position of the first one that does |
| LegacyQueue.DownloadQueue.Enqueue | services/queue.py:247-317 | a full queue refuses with nothing changed; a duplicate returns the existing task with nothing changed; otherwise a new pending task is inserted in sorted position, indexed by id and listed last for its user, and its position is reported |
| LegacyQueue.DownloadQueue.Add | services/queue.py:300-312 | the accepting half of `enqueue`: sorted insert, both indexes, and the 1-based position |
| LegacyQueue.DownloadQueue.Index | services/queue.py:300-310 | the task lands at its stable sort position and is indexed by id and user |
| LegacyQueue.DownloadQueue.CancelTask | services/queue.py:342-387 | refuses an unknown id, another user's task, a PROCESSING task and any other non-pending task, each with its message and nothing changed; otherwise the task is cancelled, leaves the pending list, joins the history and stays indexed |
| LegacyQueue.DownloadQueue.CancelPending | services/queue.py:373-385 | a pending indexed task is cancelled, leaves the list once and joins the bounded history |
| LegacyQueue.DownloadQueue.GetNextTask | services/queue.py:446-474 | the leading withdrawn or expired heads are dropped, the expired ones time out into the history, and the first other head is taken off and returned, or none when the list runs out |
| LegacyQueue.DownloadQueue.TakeAt | services/queue.py:470-474 | the head where the scan stopped is taken off and returned, or none at the end |
| LegacyQueue.DownloadQueue.DiscardHeads | services/queue.py:449-469 | the scan's loop stops where `DiscardedUpTo` says and times out exactly `TimedOut`'s tasks |
| LegacyQueue.DownloadQueue.DiscardOne | services/queue.py:453-468 | one discarded head: a withdrawn one only goes, another one times out into the history |
| LegacyQueue.DownloadQueue.TimeOutOne | services/queue.py:459-462 | a timed-out head gets TIMEOUT with the queue-timeout error and joins the history |
| LegacyQueue.DownloadQueue.ClearQueue | services/queue.py:684-700 | every pending task is marked CANCELLED with the clearing error and joins the history in queue order; the list is emptied, the count is its old size, and the current task and the indexes stay |
| LegacyQueue.DownloadQueue.ClearAll | services/queue.py:689-695 | the loop clears every task and appends them to the history in order |
| LegacyQueue.DownloadQueue.ClearOne | services/queue.py:690-692 | one loop step clears the next task and appends it |
| LegacyQueue.DownloadQueue.ClearTask | services/queue.py:690-692 | a cleared task is CANCELLED with the clearing error and joins the history |
| LegacyQueue.DownloadQueue.CleanupOldTasks | services/queue.py:702-729 | exactly the finished tasks completed more than `max_age` ago leave the id index, the count is how many, and the user index is pruned; the queue and history stay |
| LegacyQueue.DownloadQueue.CollectStale | services/queue.py:708-712 | the first loop collects exactly the stale ids |
| LegacyQueue.DownloadQueue.DeleteIds | services/queue.py:714-716 | the second loop deletes exactly those ids and counts them |
| LegacyQueue.DownloadQueue.PruneUserIndex | services/queue.py:719-724 | the third loop leaves the pruned user index |
| LegacyQueue.DownloadQueue.PruneUser | services/queue.py:720-724 | one user's list is filtered to indexed ids and the user is dropped when it empties |
| Rip.FirstRealKey | core/rip.py:268 | the `next(...)` generator: a key of the list that is not the prefetch key, or none |
| Rip.FirstRealKeyAt | core/rip.py:268 | the key at the first non-prefetch position is the one picked |
| Rip.FirstRealKeyNone | core/rip.py:268 | a list of prefetch keys only has no real key |
| Rip.ResolveDecryptKey | core/rip.py:259-272 | an empty key list gives no key and false; an in-range index gives its key, flagged iff it is the prefetch key; a non-empty list always gives one of its keys |
| Rip.ResolveOutOfRange | core/rip.py:268-270 | out of range, the first non-prefetch key is used, unflagged, when it is not empty |
| Rip.ResolveAllPrefetch | core/rip.py:268-272 | out of range with only prefetch keys, the prefetch key is used and flagged |
| Rip.ResolveEmptyRealKey | core/rip.py:269-272 | out of range, an empty first real key is falsy, so the first key is used and flagged whatever it is |
| Rip.KeyOf | core/rip.py:204-205 | a sample's usable key is the resolved key when it is truthy, and there is none exactly when the resolved key is missing or empty |
| Rip.PyIndex | core/rip.py:82 | `list[i] = v` writes position i, or n+i for a negative i, and raises outside −n..n−1 |
| Rip.Nones | core/rip.py:71 | `[None] * n`: n empty slots |
| Rip.Filled | core/rip.py:60 | the filled slots are never more than the slots |
| Rip.Deliver | core/rip.py:80-85 | a success callback keeps the slot count, the event's existence and the error |
| Rip.DeliverAll | core/rip.py:80-85 | a run of callbacks keeps the slot count, the event's existence and the error |
| Rip.DeliverWrites | core/rip.py:80-85 | an index in range writes that one slot, adds one to the count and sets the event iff it was set or the count reaches the slot count with an event present; an index out of range raises and changes nothing |
| Rip.FilledNones | core/rip.py:71 | fresh slots hold nothing |
| Rip.FilledUpdate | core/rip.py:82 | filling an empty slot fills one more |
| Rip.FilledAll | core/rip.py:76-78 | all slots are filled iff the filled count is the length |
| Rip.CompleteMeansFilled | core/rip.py:76-78 | while the counter matches the filled slots, completion means every slot is filled |
| Rip.DeliverAllDistinct | core/rip.py:68-85 | callbacks for distinct positions from a fresh state fill exactly those slots, each with its sample, and count them |
| Rip.DeliverFilled | core/rip.py:80-85 | one more callback for a new position fills its slot and counts it |
| Rip.DistinctDeliveriesComplete | core/rip.py:76-85 | with distinct positions the task completes iff every sample arrived, iff every slot is filled |
| Rip.DuplicateDeliveryCompletes | core/rip.py:76-85 | completion is a count: a sample delivered twice completes a two-sample task with a slot still empty |
| Rip.QueueStopNone | core/rip.py:203-218 | queuing goes through iff every sample has a usable key and every queue call returns |
| Rip.QueueStopFirst | core/rip.py:203-218 | queuing stops at the first failing sample, with a missing key or that call's error |
| Rip.SongDecrypt | core/rip.py:194-240 | a song that decrypts is complete, has no error and its event is set |
| Rip.Conclusion | core/rip.py:222-236 | after the wait, success means complete, no error and the event set |
| Rip.SongDecryptStops | core/rip.py:203-218 | a sample that cannot be queued fails the song with that sample's message and leaves the slots and the count |
| Rip.SongDecryptAllArrive | core/rip.py:194-236 | from a fresh state, when every sample is queued and each position's sample arrives once, the song decrypts with every slot filled |
| Rip.EmptySongTimesOut | core/rip.py:222-228 | a song without samples never sets its event and always times out |
| Rip.DownloadTask.constructor | core/rip.py:47-66 | a new task has no samples, no keys, empty slots, a zero count, no event and no error |
| Rip.DownloadTask.InitDecryptedSamples | core/rip.py:68-74 | with song info, one empty slot per sample, a zero count, a fresh unset event and no error; without it, nothing changes |
| Rip.DownloadTask.OnSampleDecrypted | core/rip.py:80-85 | raises iff the index is out of range; the new state is the delivery |
| Rip.DownloadTask.OnDecryptFailed | core/rip.py:87-91 | records the error and sets the event when there is one |
| Rip.QueueSamples | core/rip.py:203-218 | the queuing loop stops where `QueueStopFrom` says |
| Rip.DecryptionManager.constructor | core/rip.py:136-140 | no task is registered and the stream is not open |
| Rip.DecryptionManager.EnsureInitialized | core/rip.py:143-160 | raises iff the stream was closed and opening fails; afterwards it is open iff it was or opening succeeded |
| Rip.DecryptionManager.OnDecryptSuccess | core/rip.py:162-172 | an unknown id changes nothing; a registered task receives the sample as `Deliver` says, raising iff its index is out of range |
| Rip.DecryptionManager.DecryptSong | core/rip.py:185-245 | raises, with nothing changed, iff the stream cannot be opened; otherwise the task is unregistered on exit whatever happened and its state and success are those of `SongDecrypt` |
| Rip.DecryptionManager.Conclude | core/rip.py:222-245 | the task is unregistered and the outcome is `Conclusion` of its state |
| Rip.GroupStopped | core/rip.py:484-489 | once a sample has no usable key the grouping stays stopped there |
| Rip.GroupFirstUnresolvable | core/rip.py:484-489 | the grouping stops exactly at the first sample without a usable key |
| Rip.GroupResolvable | core/rip.py:484-491 | with a usable key for every sample, every sample is grouped |
| Rip.SizeSumUpdate | core/rip.py:491-509 | changing one group changes the total by the change in its size |
| Rip.GroupOrderValid | core/rip.py:479-491 | the keys in first-use order name the non-empty groups, each once, and the group sizes add up to the samples grouped |
| Rip.OrderValidStep | core/rip.py:491 | appending to a group keeps the order; a new key joins it last |
| Rip.GroupEntriesValid | core/rip.py:491 | each group holds its samples' data at their indexes |
| Rip.GroupEntriesOwned | core/rip.py:491 | each entry is in the group of its own sample's key |
| Rip.GroupEntriesRising | core/rip.py:484-491 | within a group, the indexes rise and stay below the samples grouped |
| Rip.GroupCovers | core/rip.py:484-491 | every grouped sample sits in its own key's group |
| Rip.GroupSamples | core/rip.py:479-491 | the grouping loop computes `Group` |
| Rip.PlaceGroup | core/rip.py:506-507 | placing chunks keeps the slot count |
| Rip.PlaceGroupSpec | core/rip.py:506-507 | the t-th chunk lands at the t-th entry's position and other positions keep their slot |
| Rip.ScatterUpTo | core/rip.py:495-509 | scattering keeps the slot count |
| Rip.ScatterOk | core/rip.py:495-504 | scattering goes through iff every group's reply succeeded with a non-empty list of the group's length, iff it leaves no error |
| Rip.ScatterFirstBad | core/rip.py:500-504 | the first bad reply stops the scatter with its error, or the default message when the error is empty |
| Rip.ScatterKeeps | core/rip.py:506-507 | a scattered group writes no position of an earlier group |
| Rip.ScatterCount | core/rip.py:509 | while scattering succeeds the counter is the scattered groups' total size |
| Rip.ScatterPlaced | core/rip.py:495-509 | while scattering succeeds, each scattered group's j-th chunk sits at its j-th sample's position |
| Rip.FastDecryptSpec | core/rip.py:474-512 | the fast path succeeds iff every sample has a usable key and every group's reply is good; then every sample is counted and each group's j-th chunk sits at its j-th sample's index |
| Rip.ScatterStopped | core/rip.py:500-504 | once a reply is bad the scatter stays where it stopped |
| Rip.PlaceInto | core/rip.py:506-507 | the `zip` loop writes the group's chunks at its entries' positions |
| Rip.ScatterGroups | core/rip.py:495-509 | the loop over the groups computes `ScatterUpTo` over all of them |
| Rip.FastDecryptTask | core/rip.py:474-512 | the task's slots, counter, success flag and error are those of `FastDecrypt` |
| CoreTypes.CallbackRunsOnce | core/types.py:23-26 | over any run of `try_done` calls the callback runs once if the run brings the count to 0, and never otherwise |
| CoreTypes.ParentDoneHandler.constructor | core/types.py:19-21 | the handler starts at its count with no callback run |
| CoreTypes.ParentDoneHandler.TryDone | core/types.py:23-26 | the count drops by exactly one, and the callback runs exactly on the call that makes it 0 |
| CoreTypes.PatternByCodec | core/types.py:76-97 | no pattern iff the codec is not one of the seven known ones; AAC and legacy AAC share the stereo pattern, and each other codec has its own |
| CoreTypes.PatternExamples | core/types.py:76-97 | the Atmos pattern accepts `audio-atmos-…` and `audio-ec3-…`, AC3, binaural, downmix and AAC each accept their own stream name, and the AAC pattern rejects a binaural stream |
| CoreTypes.AlacPatternExamples | core/types.py:80 | the ALAC pattern accepts 44100-16 and 192000-24 streams and rejects a four-digit sample rate |
| CoreUtils.Pow2Monotone | core/utils.py:35-37 | powers of two grow with the exponent |
| CoreUtils.BitLengthSpec | core/utils.py:37 | `bit_length` is 0 only for 0 and is the number of binary digits of the magnitude |
| CoreUtils.ByteLengthSpec | core/utils.py:35-37 | `byte_length` is 0 only for 0 and is the fewest bytes that hold the magnitude |
| CoreUtils.SortByBandwidth | core/utils.py:51 | the sort keeps exactly the playlists it was given |
| CoreUtils.SortByBandwidthSorted | core/utils.py:51 | the sort leaves the playlists widest first |
| CoreUtils.FirstWidest | core/utils.py:51-64 | the first playlist of the largest average bandwidth |
| CoreUtils.SortByBandwidthHead | core/utils.py:51-64 | the sort is stable, so its head is the first of the widest playlists |
| CoreUtils.CandidatesSorted | core/utils.py:47-60 | the limited list is widest first |
| CoreUtils.CandidatesMembers | core/utils.py:47-60 | the limited list holds exactly the playlists whose audio matches the codec's pattern and, for ALAC, whose bit depth and sample rate are within the limits |
| CoreUtils.FindBestCodecSpec | core/utils.py:40-64 | an unknown codec fails iff there is a playlist to match (the regex call raises on `None`) and gives no playlist over an empty list; for a known codec nothing is chosen iff no playlist is eligible, and a chosen playlist is eligible and at least as wide as every eligible one |
| CoreUtils.CandidatesBest | core/utils.py:53-64 | the head of the limited list is eligible and the widest eligible playlist; the list is empty iff none is eligible |
| CoreUtils.HeadIsWidest | core/utils.py:62-64 | the head of a widest-first list of exactly the acceptable playlists is the widest acceptable one |
| CoreUtils.FindBestCodecStable | core/utils.py:51-64 | without limits ties go to the first of the widest matching playlists |
| CoreUtils.AlacStreamChosen | core/utils.py:40-64 | a single ALAC stream within both limits is chosen for ALAC |
| CoreUtils.CodecFromCodecId | core/utils.py:160-169 | the first codec in the fixed order whose pattern matches the id, and "" iff none matches |
| CoreUtils.AlacCodecId | core/utils.py:160-169 | an ALAC stream id matches no codec before ALAC in the fixed order and matches ALAC |
| CoreUtils.Chunk | core/utils.py:67-70 | a negative size raises `islice`'s ValueError, with its text for a stop of -1 and its other text below that; size 0 gives no chunks, and any other size gives chunks that concatenate back to the input, none empty, each at most `size` long and all but the last exactly that long |
| CoreUtils.PiecesSpec | core/utils.py:67-70 | the chunks concatenate back to the input, none is empty, and all but the last have exactly `size` items |
| CoreUtils.DigitsIn | core/utils.py:75 | the filter keeps only ASCII digits, and is empty iff the text has none |
| CoreUtils.DigitsInDigits | core/utils.py:75 | a text of digits is kept whole |
| CoreUtils.DigitFromNatString | core/utils.py:73-75 | reading the decimal text of a number gives the number |
| CoreUtils.DigitsToNatZeroPad | core/utils.py:129 | `rjust(2, '0')` keeps the text a digit string with the same value |
| CoreUtils.LeadingZero | core/utils.py:129 | a leading zero adds nothing to the value |
| CoreUtils.Fields | core/utils.py:106-126 | one number per field when every field has a digit |
| CoreUtils.TwoSpec | core/utils.py:129 | each timestamp field has at least two digits, exactly two below 100, and reads back as its number |
| CoreUtils.NatToStringShort | core/utils.py:129 | a number below 100 has at most two digits |
| CoreUtils.CountCharAppend | core/utils.py:103 | counting a character is additive over concatenation |
| CoreUtils.CountCharAbsent | core/utils.py:103 | an absent character counts 0 |
| CoreUtils.MinuteFormCount | core/utils.py:100-107 | "m:s.ms" with digit fields has a dot and exactly one colon |
| CoreUtils.MinuteFormSplit | core/utils.py:108-111 | "m:s.ms" splits into its three fields |
| CoreUtils.FieldsOfDigits | core/utils.py:112-116 | three digit fields read as their numbers |
| CoreUtils.ParseMinuteForm | core/utils.py:95-116 | "m:s.ms" with digit fields reads as that many minutes, seconds and milliseconds and no hours |
| CoreUtils.Asides | core/utils.py:133-145 | translations and transliterations only add lines, except that a replacement first drops one |
| CoreUtils.ConvertStops | core/utils.py:96-98 | once a line has stopped the conversion, later lines change nothing |
| CoreUtils.MissingBeginBlanks | core/utils.py:96-98 | a line without `begin` after convertible lines makes the whole result "" |
| CoreUtils.MissingMetadataRaises | core/utils.py:133-142 | a timed line after convertible lines, with the translation or pronunciation extra requested and no `iTunesMetadata` in the head, makes the whole conversion raise |
| CoreUtils.FlattenAppend | core/utils.py:93-94 | the lines of two runs of divisions are the lines of each |
| CoreUtils.AddAsides | core/utils.py:135-145 | the entry loop computes `Asides` |
| CoreUtils.ConvertLine | core/utils.py:95-145 | the body of the inner loop computes `LyricLines` for one line: "" without `begin`, a raise for an unreadable time or for a requested extra in a document without `iTunesMetadata`, otherwise the timed line and its matching extras |
| CoreUtils.ConvertItem | core/utils.py:94-145 | the inner loop over a division continues the conversion of the lines before it |
| CoreUtils.ConvertPrefixStep | core/utils.py:94 | one more line of a division is converted after the ones before it |
| CoreUtils.ConvertSnoc | core/utils.py:93-145 | converting one more line after convertible lines |
| CoreUtils.ConvertPrefixStops | core/utils.py:97-98 | a line that stops the conversion decides the division's result |
| CoreUtils.TtmlConvent | core/utils.py:78-147 | the loops over the divisions compute `TtmlToLrc`: the input for "ttml", "" at a line without `begin`, a raise at an unreadable time or when an extra is requested and the head has no `iTunesMetadata`, otherwise the joined LRC lines |
| CoreUtils.ValidFilenameAppend | core/utils.py:150-152 | cleaning works character by character |
| CoreUtils.ValidFilenameClean | core/utils.py:150-152 | a cleaned name holds none of the nine reserved characters |
| CoreUtils.ValidFilenameKeeps | core/utils.py:150-152 | a name without reserved characters is kept as it is |
| CoreUtils.ValidFilenameIdempotent | core/utils.py:150-152 | cleaning twice is cleaning once |
| CoreUtils.TrimDots | core/utils.py:157 | `\.+$` removes exactly the trailing run of dots, so the rest is a prefix not ending in a dot |
| CoreUtils.ValidDirNameSpec | core/utils.py:155-157 | a cleaned directory name holds no reserved character and does not end in a dot |
| CoreUtils.Suffix | core/utils.py:178-192 | ".m4a" unless the Atmos stream is kept raw, and then "." plus the codec |
| CoreUtils.OutputSuffix | core/utils.py:195-213 | a conversion format among flac, mp3, opus and wav, in any case, replaces ".m4a" when converting after download; otherwise the suffix stays |
| CoreUtils.PositionIndexSpec | core/utils.py:295-299 | every track id maps to the 1-based position of its last occurrence and every other mapping is kept |
| CoreUtils.PlaylistInfo.constructor | core/utils.py:295 | the playlist keeps its tracks and mapping |
| CoreUtils.PlaylistInfo.WriteSongIndex | core/utils.py:295-299 | the mapping becomes `PositionIndex` of the old mapping and the track ids |
| Mp4.FallbackFirst | core/mp4.py:59-64 | the first priority codec with a playlist is chosen when every earlier one has none |
| Mp4.FallbackNone | core/mp4.py:59-64 | the alternatives give nothing iff none of them has a playlist |
| Mp4.FallbackChosen | core/mp4.py:59-64 | a chosen alternative is one of the priority codecs, with that codec's best playlist |
| Mp4.ChoosePlaylistSpec | core/mp4.py:55-67 | a chosen playlist is its codec's best one, for the requested codec or, with alternatives allowed, a priority codec; nothing is chosen (and `CodecNotFoundException` follows) iff the requested codec and, with alternatives allowed, every priority codec have none |
| Mp4.KeySuffixFor | core/mp4.py:83-94 | the default suffix iff the codec is none of the six matched; Atmos, AC3, binaural and downmix all use "c24" |
| Mp4.SkdUrisSpec | core/mp4.py:79 | exactly the key URIs that exist and match the `skd` pattern |
| Mp4.KeysForSpec | core/mp4.py:79-98 | the prefetch key comes first, then exactly the stream's `skd` keys ending in the codec's suffix or the default one |
| Mp4.InfoFor | core/mp4.py:100-113 | bit depth and sample rate are set iff the codec is ALAC, then to the playlist's values or 0 |
| Mp4.Media | core/mp4.py:43-113 | "codec not found" only when no playlist is chosen |
| Mp4.MediaFound | core/mp4.py:55-113 | a found stream is the best playlist of the codec reported, carries that playlist's group id, and its keys and segment URI come from the downloaded stream for that codec |
| Mp4.FallbackLoop | core/mp4.py:59-64 | the alternatives loop computes `Fallback` |
| Mp4.SelectKeys | core/mp4.py:80-98 | the append loop gives the prefetch key and then the fitting keys in order |
| Mp4.ExtractMedia | core/mp4.py:43-113 | the steps of `extract_media` compute `Media` |
| Mp4.NhntMapSpec | core/mp4.py:212-213 | a sample number is mapped iff some NHML sample has it, and to the last one that does |
| Mp4.IndexNhnt | core/mp4.py:212-213 | the loop computes `NhntMap` |
| Mp4.DescSlots | core/mp4.py:215-222 | one description index per numbered sample |
| Mp4.ReadUpToPrefix | core/mp4.py:220-229 | reading the first m samples looks only at the first m description indexes |
| Mp4.RunFlat | core/mp4.py:221-229 | a run of samples continues the flat reading |
| Mp4.RunsFlat | core/mp4.py:220-229 | a fragment's runs continue the flat reading |
| Mp4.FragmentsFlat | core/mp4.py:215-229 | reading fragment by fragment and run by run is reading samples 1, 2, … in order, each with the description index of its fragment |
| Mp4.Present | core/mp4.py:222-225 | the numbers read are between 1 and m and present in the NHML |
| Mp4.PresentSpec | core/mp4.py:222-225 | each present number appears once, in increasing order |
| Mp4.ReadUpToSamples | core/mp4.py:222-229 | one sample per present number, in order, with its duration, its slot's description index and at most its byte length |
| Mp4.ReadUpToContiguous | core/mp4.py:227 | the media is read front to back: the samples' bytes joined are the media up to the read position |
| Mp4.ReadRunLoop | core/mp4.py:221-229 | the innermost loop computes `ReadRun` and counts the numbers on |
| Mp4.ReadRunsLoop | core/mp4.py:220-229 | the middle loop computes `ReadRuns` |
| Mp4.ExtractSamples | core/mp4.py:206-229 | the sample loops of `extract_song` compute `ReadFragments` |
| Metadata.DiscOf | core/metadata.py:58 | `discNumber or 1`: 1 iff the disc number is missing, 0 or 1, otherwise the disc number |
| Metadata.TrackOf | core/metadata.py:59 | `trackNumber or 0`: the track number, or 0 when missing |
| Metadata.TrackCountsMax | core/metadata.py:55-61 | a disc has an entry iff one of its tracks has a positive number, and the entry is the largest track number on that disc |
| Metadata.CountTotalTrackAndDisc | core/metadata.py:52-63 | the disc count is the last track's disc number (1 for no tracks) and the per-disc totals are `TrackCounts` |
| Metadata.Rating | core/metadata.py:203-211 | "explicit" is 1, "clean" is 2, and anything else, missing or empty included, is 0 |
| Metadata.Dump | core/metadata.py:69-96 | `model_dump` gives the 28 fields in declaration order |
| Metadata.IntOf | core/metadata.py:150-158 | `int()` of a number is that number, of anything but a string or a number it fails; a string goes to `PyInt` |
| Metadata.PyIntStrip | core/metadata.py:150-158 | `int()` of a text is the signed value of the text with `str.strip()` whitespace removed |
| Metadata.PyIntRejects | core/metadata.py:150-158 | a text holding anything but digits, `_`, a sign or whitespace raises, and a converted text holds a digit |
| Metadata.PyIntDigits | core/metadata.py:150-158 | a digit string converts to the number it spells |
| Metadata.PyIntSigned | core/metadata.py:150-158 | a leading `+` keeps the value of a digit string and a leading `-` negates it |
| Metadata.PyIntPadded | core/metadata.py:150-158 | whitespace on either side of the number does not change the result |
| Metadata.PyIntUnderscore | core/metadata.py:150-158 | a single underscore between two digit runs is skipped |
| Metadata.PyIntDoubleSign | core/metadata.py:150-158 | two signs in a row raise |
| Metadata.PyIntExamples | core/metadata.py:150-158 | `" 7\n"`, `"1_2"` and `"-0"` convert to 7, 12 and 0; the empty text, `1__2`, `_1`, `1_`, `+` and `--1` raise |
| Metadata.IntOfDigits | core/metadata.py:150-158 | a string value of digits converts to its number |
| Metadata.TrackTotalFor | core/metadata.py:120-121 | the total of the song's disc (disc 1 when unset) when recorded, otherwise 1 |
| Metadata.DiskTotalFor | core/metadata.py:126 | `disk_total or 1` is never 0 |
| Metadata.TagsFailSpec | core/metadata.py:104-161 | the loop raises iff some emitted field cannot be encoded |
| Metadata.TagsFailFirst | core/metadata.py:104-161 | the exception raised is that of the first such field |
| Metadata.TagsFailedAt | core/metadata.py:104-161 | a raised exception is that of some emitted field that cannot be encoded |
| Metadata.TagsFailedStays | core/metadata.py:104-161 | once raised, the exception is the result of the whole loop |
| Metadata.TagsComplete | core/metadata.py:104-161 | every emitted field is in the dictionary under its atom |
| Metadata.TagAt | core/metadata.py:104-161 | one emitted field is in the dictionary under its atom |
| Metadata.TagsSound | core/metadata.py:104-161 | every item of the dictionary comes from an emitted field |
| Metadata.PlaylistIndexKeyError | core/metadata.py:104-161 | as written, a song with a playlist index whose embed list names `playlist_index` raises KeyError, because the exclusion list names `playlistIndex` |
| Metadata.FieldEncodable | core/metadata.py:104-161 | with the corrected exclusion list only an identifier can fail to encode, with ValueError, exactly when `int()` rejects its value (see `PyInt`) |
| Metadata.FieldMapped | core/metadata.py:16-49 | with the corrected exclusion list every dumped field has an atom or is excluded |
| Metadata.EncodeNone | core/metadata.py:115-161 | only an identifier fails to convert, exactly when `int()` rejects its value |
| Metadata.ToTagsFails | core/metadata.py:100-163 | corrected, the conversion never raises KeyError: it fails iff an identifier asked for holds a value `int()` rejects, with that ValueError |
| Metadata.TracknumTag | core/metadata.py:119-123 | `tracknum` becomes `((n, total),)` with its disc's total |
| Metadata.DiskTag | core/metadata.py:125-127 | `disk` becomes `((d, disk_total or 1),)` |
| Metadata.RatingTag | core/metadata.py:105-147 | the rating is written whenever it is asked for, even when it is 0 or unset |
| Metadata.SongIdTag | core/metadata.py:149-151 | a numeric song id becomes its integer under `cnID` |
| Metadata.SongIdField | core/metadata.py:16-49 | the song id is dumped first and has the `cnID` atom |
| Metadata.SongIdEncodes | core/metadata.py:149-151 | a song id of digits encodes to the number it spells |
| Metadata.UpcTag | core/metadata.py:133-135 | the UPC becomes its encoded bytes under the iTunes barcode atom |
| Metadata.TitleTag | core/metadata.py:161 | a plain text field becomes its `str()` under its atom |
| Metadata.TitleField | core/metadata.py:29 | the title is dumped second, has the `©nam` atom and is shown as text |
| Metadata.FieldTag | core/metadata.py:104-161 | a dumped field that is asked for, has an atom and converts appears under that atom |
| Metadata.SkippedFields | core/metadata.py:104-112 | unset fields (but the rating) and fields not asked for never produce an atom |
| Metadata.TagsUpToStep | core/metadata.py:104-161 | one more field after a prefix: skipped, raising, or added under its atom |
| Metadata.TagsLoop | core/metadata.py:104-161 | the loop computes `TagsUpTo` |
| Metadata.ToMutagenTags | core/metadata.py:100-163 | `to_mutagen_tags`, with the corrected exclusion list, computes `ToTags` |
| Url.FirstOf | core/url.py:34 | the first position holding one of the stop characters, or the end, as `urlparse` scans |
| Url.LastSegmentStart | core/url.py:34 | the start of the last path segment: no slash after it, a slash just before it |
| Url.SplitParams | core/url.py:34 | `urlparse` cuts the path at the first `;` of its last segment: the result is a prefix of the path that keeps the whole path up to that segment and has no `;` in it |
| Url.SplitParamsNone | core/url.py:34 | a path without `;` is not cut |
| Url.LastSegmentAfter | core/url.py:34 | after a slash and a slash-free text, the last segment is that text |
| Url.SplitParamsCut | core/url.py:34 | a last segment `id;params` is cut to `id` |
| Url.SpacesForPlus | core/url.py:51-53 | `parse_qs` turns every `+` of a value into a space and keeps every other character |
| Url.SpacesForPlusKeeps | core/url.py:51-53 | a value without `+` is kept as it is |
| Url.FirstI | core/url.py:51-53 | `parse_qs(query).get("i")[0]`: the first `i=` item with a non-empty value, no earlier item being one, with `+` turned into a space (so `i=1&i=2` gives "1"), and none exactly when no item is `i=` followed by something |
| Url.ParseUrl | core/url.py:29-67 | no link when the guard regex fails; an IndexError only when it matches and the path has fewer than three segments; a parsed link keeps the URL and takes the storefront from the first segment |
| Url.ParseKinds | core/url.py:41-67 | song, artist and playlist links take their id from the last segment; any other type but album gives no link |
| Url.ParseAlbum | core/url.py:46-57 | an album link names the song of its first `i` query value, and otherwise the album of its last segment |
| Url.IsValidUrl | core/url.py:69-72 | true iff `parse_url` gives a link, false iff it gives none, and its exception propagates |
| Url.FirstOfAfter | core/url.py:34 | a scan passes through a prefix without stop characters |
| Url.FirstOfNone | core/url.py:34 | a text without stop characters is scanned to its end |
| Url.HostClean | core/url.py:31-34 | the host has no character that ends the netloc |
| Url.NoneOfConcat | core/url.py:34 | two texts without stop characters join into one without |
| Url.SplitClean | core/url.py:34 | on a clean link the netloc is the host, the path runs to the `?` and is cut at a `;` in its last segment, and the query is the rest |
| Url.KeepClean | core/url.py:34 | a link without tab or newline characters is not changed by `urlparse`'s stripping |
| Url.SplitRestClean | core/url.py:34 | the netloc, path (cut at a `;` of its last segment) and query of the part after the scheme |
| Url.TailSplit | core/url.py:34 | a tail without a fragment splits at its `?` |
| Url.SplitThree | core/url.py:35 | `/a/b/c` splits into "", a, b and c |
| Url.SplitSlash | core/url.py:35 | a first part without a slash splits off on its own |
| Url.GuardCanonical | core/url.py:31 | the guard accepts every `https://music.apple.com/{storefront}/{type}/...` link |
| Url.CanonicalParts | core/url.py:31-39 | a canonical link passes the guard and its segments are "", storefront, type and id |
| Url.CanonicalSplit | core/url.py:34 | a canonical link splits into the host, its path cut at a `;` of its last segment, and the query |
| Url.PlainParts | core/url.py:34-53 | a plain part has no slash, ampersand, semicolon, plus sign or stop character |
| Url.CanonicalPath | core/url.py:34 | the path of a canonical link has no `;` to cut |
| Url.KindNameClean | core/url.py:41-56 | every kind name is one of song, album, playlist and artist, without a slash |
| Url.PathClean | core/url.py:34 | the path of a canonical link has no stop character |
| Url.ParseCanonical | core/url.py:29-72 | parsing a canonical song, artist or playlist link gives back its kind, storefront and id, and it is valid |
| Url.ParseCanonicalAlbum | core/url.py:46-49 | an album link without a query parses as that album |
| Url.ParseAlbumSong | core/url.py:50-54 | an album link with `?i={song}` names the song |
| Url.ParseAlbumQuery | core/url.py:50-54 | an album link with `?i={song}` names that song, with each `+` of the value turned into a space |
| Url.QueryOfSong | core/url.py:51-53 | the query `i={song}` gives the song id |
| Url.ParseParamsStripped | core/url.py:34-67 | a link whose id carries `;params` parses as the bare id with the same kind and storefront |
| Url.ParamsSegments | core/url.py:31-39 | such a link passes the guard, has no query, and its segments are "", storefront, type and the bare id |
| Url.OtherHostInvalid | core/url.py:31-72 | a link that does not start with `https://music` is not valid |
| Cli.Merged | core/cli.py:21-29 | the merge has every key of either side |
| Cli.DeepMerge | core/cli.py:21-29 | the copy-and-overwrite loop computes `Merged` |
| Cli.MergeFlat | core/cli.py:21-29 | without dict values in the updates the merge is the plain dict update |
| Cli.MergeSides | core/cli.py:24-28 | an update wins unless it and the base value are both dicts, which merge recursively over both key sets; a key only the base has keeps its value |
| Cli.MergeEmpty | core/cli.py:21-29 | merging nothing keeps the base, and merging into nothing gives the updates |
| Cli.MergeSelf | core/cli.py:21-29 | merging a dict into itself gives it back |
| Cli.MergeIdempotent | core/cli.py:21-29 | applying the same updates twice is applying them once |
| Cli.SchemaNodeDefault | core/cli.py:32-42 | a leaf gives its `default` or None; a node that is not a dict raises |
| Cli.ObjectNodeDefault | core/cli.py:34-39 | an object node's default holds exactly the children whose default is not None, with those defaults |
| Cli.NoDefaultLeaf | core/cli.py:40-42 | a leaf without `default` gives None |
| Cli.SchemaDefaultsKeep | core/cli.py:62-69 | the defaults hold exactly the dict nodes whose default is not None, each under its own key |
| Cli.LoadSchemaDefaults | core/cli.py:45-69 | the loop over the top-level nodes computes `SchemaDefaults` |
| Cli.DefaultsStep | core/cli.py:63-68 | one more node: a non-dict is skipped, a raising node raises, a None default is dropped, any other default is added |
| Cli.DefaultsFailed | core/cli.py:63-68 | once a node raised, the whole loop raises |
| Cli.RegionOverrides | core/cli.py:101-107 | `storefront` and `language` exactly when given, and the section is non-empty iff one of them is |
| Cli.SectionOverride | core/cli.py:109-119 | a one-key section holds the option exactly when it was given |
| Cli.SectionOverrides | core/cli.py:101-119 | the region, path and download sections each appear only when something went into them |
| Cli.BuildOverrides | core/cli.py:92-124 | a key for each option given (the booleans whenever set, even false), each section only when non-empty, and no other key |
| Cli.ParseQualityAlwaysRaises | core/cli.py:130-134 | as written, every call raises AttributeError: the quality enum has no member `EC3` |
| Cli.ParseQuality | core/cli.py:127-135 | corrected: after trimming and lower-casing, "atmos" is Atmos, "aac" and "aac-he" are AAC, and anything else is ALAC |
| Cli.ParseQualityValue | core/cli.py:130-135 | the enum value of each quality parses back to it |
| Cli.BuildSongUrl | core/cli.py:138-140 | the canonical song link |
| Cli.BuildSongUrlParses | core/cli.py:138-140 | the link built for a two-letter storefront and a plain id parses back to that song |
| Config.Section | core/config.py:120-195 | a missing section reads as `{}`, a dict section as its fields, and anything else raises on `.get` |
| Config.StripKeeps | core/config.py:144 | stripping only removes characters |
| Config.StripClean | core/config.py:144 | a string with no surrounding whitespace strips to itself |
| Config.StrippedClean | core/config.py:144 | a comma-free piece that strips to something non-empty strips to a clean item |
| Config.ItemsClean | core/config.py:144-175 | every item kept from the comma-separated pieces is clean |
| Config.CommaListClean | core/config.py:144-175 | every item of a parsed list setting is clean: non-empty, no comma, no surrounding whitespace |
| Config.ItemsSpec | core/config.py:144-175 | a string is an item exactly when it is non-empty and some piece strips to it |
| Config.CommaListJoin | core/config.py:144-175 | joining clean items with "," and parsing the setting gives the same list back |
| Config.CommaListJoinCons | core/config.py:144 | the step of that round trip: the first item, then the parse of the rest |
| Config.JoinSplitCons | core/config.py:144 | splitting a joined list on "," peels off the first item |
| Config.ItemsCleanCons | core/config.py:144 | a clean first piece is kept as the first item |
| Config.FromAstrbotConfig | core/config.py:108-200 | the configuration is built exactly when every section is a dict and every list setting a string; otherwise it raises the first error; the plugin directory is kept |
| Config.DefaultCodecList | core/config.py:143-144 | the default codec setting "alac,aac" parses to the record default |
| Config.DefaultLyricsList | core/config.py:147-148 | the default lyrics setting parses to the record default |
| Config.DefaultEmbedList | core/config.py:171-175 | the default metadata setting parses to the record's default field list |
| Config.EmptyConfig | core/config.py:108-200 | an empty configuration gives the record defaults except `download_dir`, which becomes "downloads" rather than the record's default |
| Config.QueueDefaults | core/config.py:120-129 | without a queue section the limits are 10 tasks, 300 and 600 seconds, 2 per user, and the flags are on |
| Config.GivenSettingsKept | core/config.py:108-200 | every scalar setting present in its section is taken as given: `wrapper_url`, `wrapper_secure` and `debug_mode` at the top level, and every key of the queue, region, download (all but the two list settings), path and file sections |
| Config.CodecPriorityGiven | core/config.py:143-144 | a codec priority given as a string is that string, parsed |
| Config.LyricsExtraGiven | core/config.py:147-148 | lyrics extras given as a string are that string, parsed |
| Config.EmbedMetadataGiven | core/config.py:171-176 | embedded metadata fields given as a string are that string, parsed |
| Config.PathOf | core/config.py:204 | a path is absolute iff its text starts with "/", and its parts are non-empty, not ".", and have no "/" |
| Config.Proper | core/config.py:204 | only parts that name something are kept |
| Config.JoinPath | core/config.py:210-249 | joining onto an absolute path gives that path; otherwise the parts are appended |
| Config.Parent | core/config.py:233-237 | the parent keeps absoluteness and, for a non-empty path, adding back the name gives the path |
| Config.PluginName | core/config.py:251-255 | the plugin directory's name, or "astrbot_plugin_applemusicdownloader" without one |
| Config.AstrbotDataDir | core/config.py:217-241 | the host's data directory when it can be imported; otherwise the plugin directory's grandparent exactly when its parent is "plugins" and its grandparent "data" |
| Config.PluginDataDir | core/config.py:243-249 | `<data>/plugin_data/<plugin name>` exactly when a data directory is known |
| Config.DownloadPath | core/config.py:202-215 | the path is computed exactly when `download_dir` is a string |
| Config.PathOfName | core/config.py:204-249 | a single clean name is a path of one part |
| Config.DefaultNameClean | core/config.py:255 | the default plugin name is a single part |
| Config.DownloadPathAbsolute | core/config.py:205-215 | an absolute download directory is returned unchanged |
| Config.DownloadPathUnderData | core/config.py:209-210 | a relative directory starting with "plugin_data" goes directly under the data directory |
| Config.DownloadPathUnderPluginData | core/config.py:211-249 | any other relative directory goes under `<data>/plugin_data/<plugin name>` |
| Config.PluginDataDirParts | core/config.py:243-249 | the plugin's data directory, part by part |
| Config.DownloadPathNoData | core/config.py:213-215 | without a data directory a relative directory goes under the plugin directory, or stays relative |
| Config.InstalledPluginDownloads | core/config.py:202-255 | a plugin installed as `<data>/plugins/<name>` puts "downloads" at `<data>/plugin_data/<name>/downloads` |
| Downloader.MapOfHas | services/downloader.py:57-103 | every key listed in the template is a key of the dict built from it |
| Downloader.MapOfExtend | services/downloader.py:57-103 | adding more entries keeps the keys already there |
| Downloader.MappedSpec | services/downloader.py:133-137 | after the mapping loop each mapped key holds the plugin's value when that value is present, not None and not "", and the template's otherwise; every other key keeps the template's value |
| Downloader.MappedKeys | services/downloader.py:108-137 | the mapping loop adds no key the template lacks |
| Downloader.GenerateConfig | services/downloader.py:106-144 | the loop over the mapping and the two port entries compute the generated configuration, including its TypeError and AttributeError failures |
| Downloader.MappingWellFormed | services/downloader.py:57-131 | the mapping's downloader keys are distinct, all are template keys, and neither port key is among them |
| Downloader.MappingDistinct | services/downloader.py:112-131 | no two plugin settings map to the same downloader key |
| Downloader.InTemplateA | services/downloader.py:57-75 | each key of the template's first rows is a template key |
| Downloader.InTemplateB | services/downloader.py:76-90 | each key of the template's middle rows is a template key |
| Downloader.InTemplateC | services/downloader.py:91-103 | each key of the template's last rows is a template key |
| Downloader.MappingInTemplate | services/downloader.py:112-131 | every downloader key of the mapping is a template key |
| Downloader.PortsInTemplate | services/downloader.py:75-76 | both port entries are template keys |
| Downloader.MappingNotPorts | services/downloader.py:112-142 | no mapping entry targets a port key |
| Downloader.GeneratedMapped | services/downloader.py:106-137 | the generated configuration has exactly the template's keys, and each mapped key takes the plugin's value when the section is a dict holding it and it is not None and not "", and the template's value otherwise |
| Downloader.GeneratedUnmapped | services/downloader.py:108-137 | a template key that no setting maps to keeps its template value |
| Downloader.ForeignSections | services/downloader.py:109-137 | a `downloader_config` of None, a bool or a number raises TypeError (not iterable); a string containing `storefront` or a list holding `"alac_max"` raises TypeError (indexed with a str); a string or list that does not raise changes nothing |
| Downloader.GeneratedPorts | services/downloader.py:138-142 | both port entries are "127.0.0.1:" followed by the configured port, 10020 and 20020 when none is given |
| Downloader.PortEntries | services/downloader.py:138-142 | a successful generation had a dict `wrapper_ports`, and each port entry is rendered from its setting or its default |
| Downloader.DefaultPortDigits | services/downloader.py:139-142 | the default ports render as "10020" and "20020" |
| Downloader.ProcessConfigKeepsValues | services/downloader.py:183-196 | marking strings for quoting changes how values are written and never what they are |
| Downloader.ProcessConfigQuotes | services/downloader.py:151-194 | a string is marked for quoting only directly under one of the forced keys, at any depth; at the top level of a dict, a value is marked exactly when its key is forced and it is a string |
| Downloader.SyncConfig | services/downloader.py:321-342 | the generated configuration, plus every key of an existing dict file that it lacks; without a readable dict file, just the generated configuration |
| Downloader.SyncKeepsGenerated | services/downloader.py:333-336 | the merge keeps every generated value and only adds keys the generated configuration lacks, with the file's values |
| Downloader.CacheKeyInjective | services/downloader.py:352-353 | different requests never share a cache key |
| Downloader.LoadCache | services/downloader.py:355-379 | the loading loop keeps exactly the unexpired entries, stamps the unstamped ones now, and saves when something was stamped or dropped |
| Downloader.PrunedFresh | services/downloader.py:365-375 | an entry is kept exactly when it is not expired; a kept entry is stamped, within the time to live, and keeps its files and cover |
| Downloader.PrunedStable | services/downloader.py:355-379 | loading a freshly pruned cache again at the same time changes nothing and saves nothing |
| Downloader.CachedDownload | services/downloader.py:388-414 | a hit exactly when the entry has files and they all exist; the hit reuses those files, and the cover only if it exists; an entry with a missing file is dropped |
| Downloader.RecordThenReuse | services/downloader.py:388-430 | a recorded download whose files still exist is reused by the same request loaded again within the time to live |
| Downloader.RecordKeepsOthers | services/downloader.py:416-430 | recording one request leaves every other request's entry as it was |
| Downloader.SavePath | services/downloader.py:268-272 | an absolute folder is taken as is, and a relative one goes under the downloader directory |
| Downloader.FolderUnder | services/downloader.py:268-300 | a missing folder setting whose template value is a plain name resolves to that one directory under the downloader directory |
| Downloader.SavePathsDefault | services/downloader.py:274-300 | without folder settings the ALAC, AAC and Atmos paths are the template's three folders directly under the downloader directory, all different |
| Downloader.DownloaderConfig | services/downloader.py:254-266 | the file's dict when it holds one, `{}` for an empty file, and the outcome of generating the configuration (which may raise) when the file is missing, unreadable or not a dict |
| Downloader.ResolvedAppend | services/downloader.py:313-318 | keeping one more path adds its resolved directory to the seen set |
| Downloader.FirstDistinctSpec | services/downloader.py:311-319 | the kept paths resolve to pairwise different directories, they are among the given paths, and the first path is always kept |
| Downloader.FirstDistinctCovers | services/downloader.py:311-319 | every given path resolves like one of the kept ones |
| Downloader.DownloadDirs | services/downloader.py:304-319 | the directory of the given quality alone, or every directory in order, skipping any that resolves like an earlier one |
| UrlParser.PathOf | services/downloader.py:1012-1027 | the storefront group `(\w{2})` is two word characters |
| UrlParser.IdGroup | services/downloader.py:1012-1027 | the `(\d+)` group is all digits |
| UrlParser.Ids | services/downloader.py:1012-1027 | the `?i=` song pattern captures two digit ids, the others one; a playlist id starts with `pl.` and has more after it |
| UrlParser.Match | services/downloader.py:1010-1029 | a match captures the storefront first, then the ids, and only on the Apple Music host |
| UrlParser.Dict | services/downloader.py:1038-1062 | the result always has `type` and `storefront` entries |
| UrlParser.SongDictKeys | services/downloader.py:1038-1051 | a song result carries a `song_id` entry and no `id` entry |
| UrlParser.FirstOther | services/downloader.py:1053-1063 | the loop over the remaining patterns only gives non-song results |
| UrlParser.FirstOtherSound | services/downloader.py:1053-1063 | what the loop returns has a two-character storefront and a well-formed id for its type |
| UrlParser.FirstOtherHost | services/downloader.py:1053-1063 | the loop only matches links on the Apple Music host |
| UrlParser.ParseSound | services/downloader.py:1032-1065 | a successful parse has a two-character storefront, a known type and digit ids, except that a playlist id starts with `pl.` |
| UrlParser.HostRestPrefix | services/downloader.py:1012 | the host part is `https://music.apple.com` or `https://beta.music.apple.com` |
| UrlParser.ParseSongs | services/downloader.py:1034-1051 | the result is a song exactly when one of the two song patterns matches |
| UrlParser.ValidUrlHost | services/downloader.py:1068-1070 | a valid link is on the Apple Music host, with or without `beta.` |
| UrlParser.SongTailIsAlbumTail | services/downloader.py:1012-1015 | a `?i=` song tail is also an album tail, whose id is the album id |
| UrlParser.SongAlsoAlbum | services/downloader.py:1012-1015 | every link the song pattern accepts is also an album link, with the same storefront and album id |
| UrlParser.SongBeforeAlbum | services/downloader.py:1034-1043 | the song pattern is tried first, so such a link is reported as a song of that album |
| UrlParser.HostRestLink | services/downloader.py:1012 | both hosts are accepted in front of the path |
| UrlParser.PathOfLink | services/downloader.py:1012-1027 | a built path gives back its storefront, segment, name and tail |
| UrlParser.LinkParts | services/downloader.py:1012-1027 | a built link gives back its storefront, segment, name and tail |
| UrlParser.IdGroupOf | services/downloader.py:1012 | a digit id followed by a trailer is captured whole |
| UrlParser.LinkEnds | services/downloader.py:1034 | stripping leaves a built link unchanged when it ends cleanly |
| UrlParser.MatchLink | services/downloader.py:1010-1029 | a built link matches a pattern exactly when its segment is the pattern's and its tail fits |
| UrlParser.SongIds | services/downloader.py:1015 | the `?i=` tail captures the album id and the song id |
| UrlParser.NotSongIds | services/downloader.py:1015 | a digit id whose query does not start with `?i=` is not a song tail |
| UrlParser.PlaylistIds | services/downloader.py:1021 | a `pl.` tail captures the whole playlist id |
| UrlParser.FirstOtherOnly | services/downloader.py:1053-1063 | when exactly one remaining pattern matches, the loop reports it |
| UrlParser.ParseSongLink | services/downloader.py:1015-1043 | a `?i=` song link parses to its storefront, album id and song id |
| UrlParser.ParseDirectLink | services/downloader.py:1018-1051 | a `/song/{name}/{id}` link parses to its storefront and song id |
| UrlParser.ParseOtherLink | services/downloader.py:1053-1063 | an album, playlist, artist or music video link is reported with its type, storefront and id |
| UrlParser.ParseOnlyOther | services/downloader.py:1032-1065 | a link that only one remaining pattern matches parses to that pattern's type |
| UrlParser.ParseItemLink | services/downloader.py:1012-1063 | an album, artist or music video link parses to its type, storefront and id, when an album link's query does not start with `?i=` |
| UrlParser.ParsePlaylistLink | services/downloader.py:1021-1063 | a playlist link parses to its storefront and `pl.` id |
| UrlParser.TypeDisplay | services/downloader.py:1073-1082 | the display name of a listed type, or the type itself |
| UrlParser.DisplayOf | services/downloader.py:1082 | a dictionary lookup with the key as its default |
| UrlParser.DisplayKnown | services/downloader.py:1075-1081 | every type `parse` can report has its own display name, different from the type |
| UrlParser.DisplayOfParsed | services/downloader.py:1032-1082 | the display of a parsed link's type is never the raw type |
| Account.Stars | handlers/account.py:270 | `"*" * n` is n stars |
| Account.AtSplit | handlers/account.py:266 | splitting at the first `@` gives a local part without `@`, and the parts put back together give the address |
| Account.SplitAt | handlers/account.py:266 | `m@d` splits back into `m` and `d` when `m` has no `@` |
| Account.MaskLocalShape | handlers/account.py:267-270 | the masked local part keeps the first character, is at least two long, keeps the last character of a local part longer than two, and is stars in between |
| Account.MaskPlain | handlers/account.py:261-264 | without `@`, up to four characters are shown as they are, and a longer name as its first two characters, three stars and its last two |
| Account.MaskAddress | handlers/account.py:259-272 | an address raises exactly when its local part is empty; otherwise the domain is kept and the local part masked |
| Account.MaskKeepsLength | handlers/account.py:266-272 | an address whose local part has at least two characters keeps its length |
| Account.MaskIdempotent | handlers/account.py:259-272 | masking a masked name changes nothing |
| Account.TwoFactorStores | handlers/account.py:161-189 | a code is stored only when it is six digits and the sender has a pending session; then the waiter is woken; every other session is untouched |
| Account.BadCodesRefused | handlers/account.py:169-175 | a code that is not six digits is refused, with its own message for a missing code, and nothing changes |
| Account.RouteLoginSpec | handlers/account.py:46-82 | a lone argument is taken as a 2FA code exactly when the service is up, the sender has a pending session and it is six digits; a login attempt needs both arguments |
| Account.ClassifySpec | handlers/account.py:123-139 | the raw error is shown only when none of the three phrases occurs, in any letter case; "already login" is checked first |
| Account.AccountHandler.constructor | handlers/account.py:28-31 | no session is pending |
| Account.AccountHandler.HandleTwoFactorCode | handlers/account.py:161-189 | the reply and the new session table are those of the code check |
| Account.AccountHandler.BeginTwoFactor | handlers/account.py:87-99 | the sender's entry holds the credentials, a waiter and no code |
| Account.AccountHandler.FinishTwoFactor | handlers/account.py:103-113 | the stored code when a non-empty one arrived in time, the timeout or missing-code error otherwise; the entry is removed either way |
| Account.AccountHandler.HandleLogin | handlers/account.py:33-82 | a lone six-digit argument from a sender with a pending session is answered as `/am_2fa` would answer it; every other route leaves the table alone |
| Account.LoginCodeWakesWaiter | handlers/account.py:57-64 | a code given through `/am_login` while a session waits is stored and wakes the waiter |
| DownloadHandler.SongLinkSpec | handlers/download.py:125-126 | a link passes the song gate exactly when one of the two song patterns accepts the stripped link |
| DownloadHandler.DefaultQuality | handlers/download.py:134-137 | the configured default when it is `alac` or `aac`, and `alac` otherwise |
| DownloadHandler.DirectQualitySpec | handlers/download.py:133-150 | an empty argument takes the default, `alac`, `无损` and `lossless` give `alac`, `aac` gives `aac`, and every other argument is refused |
| DownloadHandler.DirectQualityCase | handlers/download.py:146 | letter case does not matter for the quality argument |
| DownloadHandler.StepKeepsGood | handlers/download.py:41-111 | every message keeps the session in a reachable state: waiting for a quality only with a stored song link |
| DownloadHandler.StepDownloads | handlers/download.py:84-111 | a download only ever starts for the song link stored when the session moved on, with `alac` or `aac` |
| DownloadHandler.CancelStops | handlers/download.py:51-67 | a cancel word stops a running session at either step, and nothing else stops one waiting for a link, which keeps waiting instead |
| DownloadHandler.UrlStep | handlers/download.py:58-82 | a session waiting for a link moves on exactly for a song link that is not a cancel word |
| DownloadHandler.InteractiveQualitySpec | handlers/download.py:85-101 | `""`, `1`, `alac` and `无损` give `alac`, `2` and `aac` give `aac`, and the `" "` entry is never looked up because the message is stripped first |
| DownloadHandler.InteractiveSession.constructor | handlers/download.py:41-45 | a new session waits for a link |
| DownloadHandler.InteractiveSession.Receive | handlers/download.py:48-111 | one message moves the session as the step function says, with the same outcome |
| DownloadHandler.QualityDisplayKnown | handlers/download.py:162-165 | both qualities the handler produces have their own display names |
| DownloadHandler.StorefrontFromLink | handlers/download.py:167-169 | a song link always carries its storefront, so the configured one is never used for it |
| DownloadHandler.MetadataNeverFetched | handlers/download.py:171-173 | as written, no song that passes the gate has an `id` entry, so the song name is never fetched |
| DownloadHandler.MetadataIdFound | handlers/download.py:171-173 | corrected to `song_id`, every song that passes the gate has its digit id looked up |
| DownloadHandler.PendingCountSpec | handlers/download.py:185-186 | the count is the number of the user's tasks that are pending |
| DownloadHandler.LimitSpec | handlers/download.py:185-195 | the limit counts only pending tasks: a user with none is refused only by a limit of zero or less, and one with as many as the limit always is |
| Dispatcher.DecryptDispatcher.constructor | services/manager/dispatcher.py:40-43 | the dispatcher works over the given instance manager |
| GrpcServer.Servicer.constructor | services/manager/grpc_server.py:31-42 | the service holds the manager, dispatcher and login handler it is given, and is not ready |
| InstanceManager.WrapperInstance.constructor | services/manager/instance_manager.py:26-39 | a new instance keeps its id, account, region, status and proxy, was created and last used now, and has no error and restarts allowed |
| WrapperProxy.Proxy.constructor | services/manager/wrapper_proxy.py:32-53 | a new proxy keeps its id, account, region and configuration, and has no session, is inactive and has no last song id |

## Left out

- Message texts: replies to chat users and log lines are not modelled; where a reply matters, it is a constructor of a reply type.
- Character classes: Python's Unicode `\w`, `\d`, `str.isdigit()` and `str.lower()` are taken over ASCII (letters, digits, `_`); `str.strip()` and the whitespace `int()` skips use the characters `str.isspace()` accepts.
- Concurrency: asyncio tasks, locks, events, `gather` and timeouts are not modelled; each operation is one sequential step, and a timeout is a parameter saying whether it fired.
- I/O: sockets, HTTP, files, Docker, subprocesses, the clock and `uuid` are parameters or left out, as the lines below say per module.
- Percent-decoding and the bracket and NFKC checks of `urllib.parse.urlparse` are not modelled; `Url` follows `urlparse` only for the parts the parser reads. `int()` of a string is modelled for ASCII digits only; other Unicode decimal digits are not modelled.
- The POSIX rule that a path starting with exactly two slashes keeps both is not modelled by `Config.PathOf`.
- Downloader.Render: `str()` of a list or dict inside the port entry is a placeholder text, not Python's rendering; scalars are rendered as Python does. YAML key order is not modelled.
- LegacyQueue.DownloadQueue.GetNextTask: the source reads the clock once per examined task; the model uses one time for the whole scan.
- InstanceManager.InstanceManager.RemoveInstance: the exception branch (services/manager/instance_manager.py:129-131) is not modelled, because the modelled proxy stop cannot raise.
- `_check_region_availability` (services/manager/dispatcher.py:145-153) always answers true and is never called; it is not modelled.
- random.choice: the idle and random strategies of `_select_instance` are modelled as an unspecified choice among the candidates.
- HealthMonitor: `_monitor_loop` and `_perform_health_checks` (services/manager/health_monitor.py:127-163) are left out, because they are a timed background task gathering concurrent probes; one probe and one processed result are modelled by CheckInstanceHealth and ProcessHealthResult.
- HealthMonitor: callbacks are modelled as "is set" flags plus a log of the notices they would receive; an exception inside a callback is swallowed by the source and has no effect on state. `set_health_change_callback` stores a callback that is never invoked and is not modelled.
- HealthMonitor.HealthMonitor.GetHealthMetrics: the average response time (floating-point milliseconds) is not modelled, and the last-check timestamp is an integer rather than an ISO-formatted datetime.
- LoginHandler: `asyncio.create_task` and the 60-second delay are not modelled; the background steps are separate methods (PerformLogin, ContinueLoginWith2FA, ReleaseCompleted) that a caller runs in any order. The exception branches of `_perform_login` and `_continue_login_with_2fa` are unreachable in the model, because the manager returns every failure as a tuple. uuid4 is a caller-supplied fresh id.
- GrpcServer: `License` and `WebPlayback` only abort with UNIMPLEMENTED and are not modelled; `NativeWrapperManagerServer` (services/manager/grpc_server.py:407-530) is gRPC server start-up and shutdown wiring and is not modelled. The generic `except Exception` branches that turn an unexpected exception into a -1 reply are modelled where a modelled call can raise: `M3u8` answers -1 with the exception's text and no data when the decorated `get_m3u8` raises, and `dispatch` catches the exception a proxy's `decrypt` raises. No other modelled call raises.
- GrpcServer.LyricsOutcome: the error messages of the failing branches (they embed the HTTP status and the API's error text) are not stated; every failure is stated as code -1 with no lyrics.
- RetryUtils: `ErrorHandler.handle_with_fallback`, `handle_with_timeout` and `safe_cast` (services/manager/retry_utils.py:185-239) are not modelled; they only wrap a foreign call in try/except or a timeout. The retried function, its exceptions and `retry_on_result` are given as an outcome per attempt; sleeping is recorded as the list of delays.
- Whole-second clocks: the manager modules read `time.time()` as whole seconds (the region cache TTL, for example, is compared on whole seconds), so a sub-second difference across a limit is not modelled.
- WrapperProxy.Proxy.DecryptAll: the optional `progress_callback`, called after every 100th sample with the count done and the total, is not modelled; it only reports progress to the caller.
- WrapperProxy.Proxy.GetM3u8Retrying: `is_active` is read once for all three attempts, so a proxy stopped between attempts is not modelled; a connection refused in a later attempt is returned without retry, as in the source, because `ConnectionRefusedError` is caught inside the body.
- Floating point: delays, timings, rates and percentiles are modelled with `real`, so rounding (`round(x, 2)`) and IEEE effects are not modelled.
- Metrics: `TimerContext`, `start_timer`, `get_summary`, `get_all_operation_stats` and the module-level singleton (services/manager/metrics.py:85-87, 169-200, 221-276) are not modelled; they read the clock or only copy the registries. The minimum duration's initial `float('inf')` is modelled as None.
- Metrics.PercentileIndexMonotone: `int(count * 0.95)` is modelled as exact integer arithmetic `count * 95 / 100`; float rounding of the product is not modelled.
- RegionDetector: `_check_song_in_region` (services/manager/region_detector.py:149-182) is an HTTP lookup; its answer per region is a parameter, and an exception counts as false, as in the source. Availability sets are `set`s, so `list(...)` order in `suggest_alternative_regions` is not modelled.
- QueueStorage: `resort` and `_sort` after a push are modelled through the invariant that the list is always in sort-key order (a stable sort of an already sorted list with one appended task is the stable insertion); the `PriorityStrategy` abstraction is fixed to `FIFOWithPriorityStrategy`, the only strategy the source defines. `__iter__`, `__len__` and `__repr__` are not modelled.
- QueueEvents: `emit_concurrent` (services/queue/events.py:160-191) is not modelled, because the order in which gathered handlers finish is the asyncio scheduler's; `TaskEventAdapter` (services/queue/events.py:216-249) is not modelled: each of its methods is `on` for one fixed event. Handlers are identified by a number and their arguments are not modelled.
- QueueProcessor: `_processing_loop` (services/queue/processor.py:116-141) is not modelled, because it is an endless poll driven by the event loop; one run of its body is `TaskQueue.Pop` followed by `ProcessTask`. `get_status`, `__repr__`, `poll_interval` and `max_retries` (stored, never read) are not modelled. The task timeout is a whole number of seconds, so its message always ends in ".0s".
- QueueFacade: `get_task`, `get_user_tasks`, `get_position`, `has_duplicate`, `list_tasks`, `is_empty`, `is_full`, `size`, `max_size`, `off` and `on_enqueued` … `on_timeout` (services/queue/__init__.py:155-234) are not modelled separately: each calls the storage or emitter operation of the same name, which is modelled. The formatter and `format_*` (services/queue/__init__.py:247-267) are not modelled, because the formatter is text layout outside this model; `__repr__` neither.
- LegacyQueue: `_process_task`, `_process_loop`, `start_processor`, `stop_processor`, `_notify_position_changes`, `wait_for_task` and the callback setters (services/queue.py:225-244, 405-445, 476-611) are not modelled, because they are driven by the event loop, futures and callbacks; `cancel_user_tasks` (services/queue.py:389-401) is a loop of the modelled `cancel_task`; `get_queue_status`, `get_stats`, `format_queue_status`, `to_dict`, `wait_time` and `process_time` (services/queue.py:79-116, 613-680) are not modelled, because they only report. The futures the queue cancels are not modelled.
- Rip.DecryptionManager.DecryptSong: requires the task's song info and stream info to be present. A missing song info raises `AttributeError` already in the debug line (core/rip.py:192), before the task is registered and outside the `try`, so it propagates to the caller. A missing stream info with samples to decrypt is caught by the `try` at core/rip.py:204, which returns false and unregisters the task. Neither case is modelled.
- Rip: `rip_song` (core/rip.py:275-615) is modelled only for its fast-path grouping and scatter (core/rip.py:474-512); the metadata and stream fetches, the file writing, the status updates and the choice of fast path by wrapper mode (core/rip.py:465-470) are I/O around it. `_on_decrypt_failure` (core/rip.py:174-183) re-queues the sample through the wrapper and is not modelled; `get_decryption_manager` (core/rip.py:248-256) is a process-wide cache keyed by object identity and is not modelled; `get_song_info` is I/O. The wrapper's decrypt calls are parameters: whether each queue call raises, the callbacks that arrive while waiting, and each group's `decrypt_all` reply. The decrypt timeout is "the event was not set when the callbacks ran out".
- CoreUtils.Chunk: the chunks are given as a list, where the source returns a lazy iterator; so the `islice` error on a negative size is stated as the result, whereas the source raises it only at the iterator's first `next()`.
- CoreUtils: the XML parse of `ttml_convent` (core/utils.py:90) is a parameter, the already parsed document, which always has `tt` and `body` (a document without them raises at core/utils.py:93, which the model does not represent); whether the head holds `iTunesMetadata` is part of it; `get_digit_from_string` on a text without digits raises, which the model returns as no value. `if_shell`, `get_song_id_from_m3u8`, `playlist_metadata_to_params`, `get_path_safe_dict`, `get_song_name_and_dir_path`, `check_song_exists`, `convert_mac_timestamp_to_datetime`, `check_dependencies`, `run_sync`, `query_language` and `language_exist` (core/utils.py:28-33, 172-176, 216-294, 302-360) are not modelled, because they read files, the network, the clock or the environment, or only format a template.
- Mp4: the M3U8 and XML parsing, the external `mp4extract`/`gpac` tools, the temporary files and the time parameters of `extract_song` (core/mp4.py:116-204, 231-248) are not modelled: the parsed playlists, fragments and NHML samples are parameters, and the stream download of `extract_media` is a function from URI to stream. `get_available_codecs`, `encapsulate`, `write_metadata`, `fix_encapsulate`, `fix_esds_box` and `check_song_integrity` (core/mp4.py:35-41, 251-540) are not modelled, because they run external tools on files.
- Metadata: `parse_from_song_data`, `parse_from_album_data` and the `set_*` setters (core/metadata.py:165-230) are not modelled, because they copy fields out of API records not part of this model. `MP4Cover` and `str()` of a value are tag constructors over the value, not encodings.
- Cli: `_load_schema_defaults` reading and decoding the schema file (core/cli.py:47-60) is a parameter, the decoded value or none; `_load_config`, `_resolve_url`, `_check_album_existence`, `_prompt_input`, the `_handle_*` and `_download_*` commands, `_build_parser` and `main` (core/cli.py:72-89, 143-680) are not modelled, because they read files, talk to the wrapper and the API and print.
- Config: setting values other than the list settings are carried as untyped JSON values, as the source passes them through `.get` unchecked; `get_assets_path`, the import of the host's path helper (a parameter here) and logging are not modelled.
- Downloader: the Docker service (image builds, starting and stopping the wrapper, the download command and its live log, `force_clean`, the file searches `_find_recent_files` and `_find_cover`, `check_docker_available`, `get_service_status`, `ensure_services_ready`) runs processes and touches the file system, so it is not modelled; file contents, `os.path.exists`, `Path.resolve` and the clock are parameters; YAML writing is modelled only up to the quoting pass, and a cache file that is not a dict of entries is not modelled; `track_info` of a result is left out.
- UrlParser: `MetadataFetcher.get_song_info` is a network call and is not modelled; `\w` is taken as ASCII letters, digits and `_`, whereas Python's `\w` also matches other Unicode word characters.
- Account: `handle_logout` and `handle_accounts` only format the manager's replies and status into messages, so they are not modelled; the manager's `login` call, the prompt sent by `_send_2fa_prompt` and the 300-second wait are I/O and a clock (the wait's outcome is the `timedOut` parameter); reply texts are constructors of a reply type.
- DownloadHandler: the session waiter's 60- and 30-second timeouts are kept only as the timeout each step asks for; message texts, the metadata fetch, and the enqueue and position replies after the limit check (handlers/download.py:197-233) are I/O around the queue model and are not modelled.

## Findings

| source | as written | input that shows it | evidently intended | confidence | as-written member | corrected member |
|---|---|---|---|---|---|---|
| core/metadata.py:16-24, 111, 161 | `NOT_INCLUDED_FIELD` lists "playlistIndex", but the field is named `playlist_index`, so it is not skipped, and the tag lookup `TAG_MAPPING["playlist_index"]` raises `KeyError` | a song with `playlist_index` 3 and `embed_metadata` ["playlist_index"] | the playlist index is never written as a tag, like the other listed fields | not executed | Metadata.ToTagsAsWritten, Metadata.PlaylistIndexKeyError | Metadata.ToTags, Metadata.ToTagsFails, Metadata.ToMutagenTags |
| core/cli.py:130-135 | the mapping names `DownloadQuality.EC3` and `DownloadQuality.AAC_BINAURAL`, but the enum (services/downloader.py:23-26) has only ALAC, AAC and ATMOS, so every call raises `AttributeError` | any quality argument, such as "alac" | "atmos" selects ATMOS, "aac-he" selects AAC, an enum value selects itself, anything else ALAC | not executed | Cli.ParseQualityAsWritten, Cli.ParseQualityAlwaysRaises | Cli.ParseQuality, Cli.ParseQualityValue |
| handlers/download.py:172 | the song id is read as `parsed.get("id")`, but a song result of the URL parser has `song_id` and no `id` key, so the song name is never fetched | `https://music.apple.com/us/song/x/123` | the song name is fetched for every song link, using its `song_id` | not executed | DownloadHandler.MetadataIdAsWritten, DownloadHandler.MetadataNeverFetched | DownloadHandler.MetadataId, DownloadHandler.MetadataIdFound |
