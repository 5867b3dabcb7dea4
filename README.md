# twitchalerts poll-cycle engine in Dafny

twitchalerts polls the Twitch "streams" endpoint for every configured
streamer. It calls a user-supplied event handler with `on_stream` when a
streamer goes live and with `on_error` when a request fails in a classified
way. This project models the library's core and proves its properties:

- `Client::new`: the configuration checks (user id, token, delay) and the
  80 ms floor on the inter-cycle delay.
- `Client::event_handler`: installs the handler.
- `Client::run`: the `while running` loop. Each cycle sleeps for the delay and
  then walks the streamer list in order. For each streamer it consults the
  suppression map `recent` (30-second lifetime), re-marks the streamer and
  sends one status request. It then decides, from the request's outcome,
  between `on_stream` and nothing; the decision is deduplicated through the
  process-wide list `C_STREAMING` of announced user ids. A failed request
  goes through the error-classification chain; an unclassified one silently
  removes entries from `C_STREAMING`. After every check the loop pauses for
  80 ms.
- `Error`: its constructor, its three renderings, and the documented table
  of codes.

Files:

- `Wrappers.dfy`: `Option` and `Result`.
- `Errors.dfy`: module `Errors` (src/error.rs).
- `Client.dfy`: module `Client` (src/client.rs). It holds the configuration
  and client values, construction, classification and the pure
  specification of one check (`Check`, built from `Mark` and `Respond`), of
  one cycle (`Cycle`) and of the outer loop (`Round`, `Rounds`). The class
  `Poller` performs the same steps in place, with fields `recent`,
  `streaming` (`C_STREAMING`), `trace`, `halt` and `running`. Its methods
  are proved equal to those functions.
- `ClientProperties.dfy`: lemmas about the specification functions.

Modelling choices:

- The outside world is an input. Each check receives an `Observation`: the
  clock reading used to age the suppression entry (client.rs:227), the
  separate reading stored as the new entry (client.rs:236), and the
  request's `Fetch` outcome. The outcome is one of three things:
  - the request could not be sent;
  - the body decoded into a `data` array, where empty means offline;
  - decoding failed, carrying the seven error predicates
    `is_timeout` … `is_builder`.
- Clock readings are milliseconds. `num_seconds()` truncation toward zero is
  written out (`NumSeconds`). The contract of `Suppressed` states that an
  entry suppresses exactly while it is less than 30 000 ms old, or when it is
  stamped in the future.
- The handler is modelled by the `trace` of `Step`s. A step is
  `Wait(ms)` (a `tokio::time::sleep`), `Request(streamer)` (a status
  request) or `Dispatch(event)` (a handler call).
- `C_STREAMING` is a field of `Poller`. It outlives a run, as the static
  does. `recent` and `running` are reset at the start of each run, as the
  locals of `run` are. `halt` is cleared too: it belongs to one run, whose
  panic ends that run only.
- A request that cannot be sent makes the check task panic
  (client.rs:247). Awaiting the task then panics the run (client.rs:289).
  This is modelled by `halt`: once it is set, nothing else happens, and the
  run's outcome is `Panicked`.
- The outer loop never ends when the list is non-empty. `Poller.Run` and
  `Rounds` therefore run for the number of cycles the input describes.
  `NonEmptyListKeepsRunning` proves that such a run is still running at the
  end unless it panicked. `EmptyListReturns` proves that an empty list ends
  the run with `Ok` after one cycle.
- There is no
  persistence of live-session start times, no `alerts` filtering and no
  write-back. Suppression entries are replaced when at least 30 s old,
  rather than evicted in bulk. Deduplication uses the `C_STREAMING` user-id
  list. Error codes 8 to 11 are documented but never produced: an
  unclassified error reaches no handler, and a failed task panics the run.
- Construction unwraps the delay (client.rs:122), so a configuration with
  no delay also aborts construction. This is the third failure, after the
  missing user id and the missing token.
- An unclassified failure removes entries equal to the streamer's login
  name, but `C_STREAMING` holds user ids (client.rs:259-263 against
  client.rs:282-283). An announced user id is therefore forgotten only when
  it equals the login of a configured streamer, and going offline never
  forgets it. `IdsOutsideTheListAnnouncedOnce` proves the consequence: a
  user id that is no configured login gets at most one `on_stream` over the
  whole run. `AliceScenario` shows an unclassified failure for "alice"
  leaving her id "141981764" announced.

## Model

| member | source | states |
|---|---|---|
| Errors.New | src/error.rs:58-62 | the built error carries exactly the given code and description |
| Errors.Debug | src/error.rs:39-42 | writes the description, and only it, after what the formatter already holds |
| Errors.Display | src/error.rs:45-48 | the same rendering as Debug |
| Errors.Description | src/error.rs:51-54 | returns the stored description |
| Errors.RenderNew | src/error.rs:39-62 | all three renderings of a freshly built error, into an empty formatter, give exactly its description |
| Errors.Documented | src/error.rs:9-23 | the documented table: text for codes 1 to 11, none for any other code |
| Client.New | src/client.rs:111-136 | fails exactly when user id, token or delay is missing, with the first missing one's message; otherwise keeps id, token and config, has no handler, and stores max(delay, 80) ms, which is at least 80 |
| Client.WithHandler | src/client.rs:165-169 | afterwards a handler is set and every other field is unchanged |
| Client.Classify | src/client.rs:266-281 | unclassified exactly when none of the seven predicates holds; otherwise the code is the position of the first predicate that holds, in the order timeout, connect, status, redirect, request, body, builder, and the description is that code's documented text |
| Client.NumSeconds | src/client.rs:227-228 | whole seconds of a millisecond duration, truncated toward zero, for both signs |
| Client.Without | src/client.rs:282-284 | every occurrence of the name is dropped; every other element keeps its count and its order (a subsequence); a list without the name is unchanged |
| Client.Suppressed | src/client.rs:226-229 | a streamer is suppressed exactly when it has an entry less than 30 000 ms old (or in the future); used by SkipsWithinWindow, MarksBeforeRequest and CheckRequests |
| Client.Mark | src/client.rs:231-246 | afterwards the streamer's entry is the new clock reading, its key set is the old one plus the streamer, and other entries are unchanged; exactly one request for the streamer is appended to the trace; announced ids and the panic state are unchanged |
| Client.Respond | src/client.rs:249-291 | the suppression map is unchanged; a request that cannot be sent panics with the check-task message and adds no step; any other outcome adds one or two steps ending in the 80 ms pause; the per-outcome behaviour is stated by OfflineIsQuiet, AnnouncedIsQuiet, NewLiveAnnounces, ClassifiedFailureReports, UnclassifiedFailureForgets and RespondSendsNothing |
| Client.Check | src/client.rs:224-291 | the trace only grows; after a panic, or for a suppressed streamer, nothing changes |
| Client.Cycle | src/client.rs:224-292 | the trace only grows; after a panic nothing changes; the only panic a cycle can raise is the check-task one; order, deduplication and pacing over a cycle are stated by CycleRequestsInOrder, CycleNoDup, CycleBounded and CyclePacing |
| Client.Round | src/client.rs:212-292 | running stays set exactly when the streamer list is non-empty; the trace starts with the old trace and then the configured sleep |
| Client.Rounds | src/client.rs:211-294 | the trace only grows; once running is cleared or a panic happened, nothing changes; running is never set again once cleared; the only panic is the check-task one; stated further by RoundsNoDup, RoundsBounded, RoundsPacing, EmptyListReturns and NonEmptyListKeepsRunning |
| Client.Poller.constructor | src/client.rs:10 | a fresh process: nothing announced, nothing done, not running |
| Client.Poller.CheckOne | src/client.rs:226-291 | one streamer of the inner loop, in place, equal to Check of the old state |
| Client.Poller.HandleResponse | src/client.rs:249-291 | the check task and the pause after it, in place, equal to Respond of the old state |
| Client.Poller.RunCycle | src/client.rs:224-292 | the inner for loop, in list order and stopping at a panic, equal to Cycle of the old state |
| Client.Poller.Run | src/client.rs:202-295 | without a handler it panics with "No Event Handler Set" and changes nothing; otherwise it starts from an empty suppression map and no panic, keeps the announced ids, and ends in the state and outcome of Rounds |
| ClientProperties.SkipsWithinWindow | src/client.rs:226-230 | such a streamer is skipped: no request, no event, suppression map and announced ids unchanged |
| ClientProperties.MarksBeforeRequest | src/client.rs:231-247 | otherwise the entry is set to the second clock reading, other entries are kept, and exactly one request for the streamer follows |
| ClientProperties.CheckRequests | src/client.rs:224-247 | a check adds its streamer to the requests if it was not suppressed, and nothing otherwise |
| ClientProperties.RespondSendsNothing | src/client.rs:249-291 | handling a response sends no further request |
| ClientProperties.OfflineIsQuiet | src/client.rs:253-255 | empty data: no event, announced ids unchanged, then the pause |
| ClientProperties.AnnouncedIsQuiet | src/client.rs:259-261 | live with an already announced user id: no event, announced ids unchanged |
| ClientProperties.NewLiveAnnounces | src/client.rs:257-264 | live with a new user id: exactly one on_stream with the first stream record, and the id appended |
| ClientProperties.ClassifiedFailureReports | src/client.rs:266-280 | a classified failure: exactly one on_error with the classified error, announced ids unchanged |
| ClientProperties.UnclassifiedFailureForgets | src/client.rs:281-285 | an unclassified failure: no event; the streamer's name is no longer announced; all other ids keep their counts and order |
| ClientProperties.SendFailurePanics | src/client.rs:246-247 | a request that cannot be sent panics the run right after the request |
| ClientProperties.EveryCodeReachable | src/client.rs:267-280 | each code 1 to 7 is produced, with its documented description, by some error |
| ClientProperties.CheckNoDup | src/client.rs:259-264 | a check keeps every announced id occurring once |
| ClientProperties.CycleNoDup | src/client.rs:224-292 | a cycle keeps every announced id occurring once |
| ClientProperties.RoundsNoDup | src/client.rs:211-293 | any number of cycles keeps every announced id occurring once |
| ClientProperties.CheckBounded | src/client.rs:259-285 | unless the check forgets `u`, it announces `u` only when it adds `u`, and never when `u` is already announced |
| ClientProperties.RoundsBounded | src/client.rs:211-293 | the same bound over any number of cycles |
| ClientProperties.AtMostOneAnnouncement | src/client.rs:259-264 | over a run, a user id gets at most one on_stream, and none if already announced at the start, unless an unclassified failure of a streamer with that very name forgets it |
| ClientProperties.IdsOutsideTheListAnnouncedOnce | src/client.rs:282-283 | a user id that is no configured login gets at most one on_stream over a whole run |
| ClientProperties.CycleRequestsInOrder | src/client.rs:224-247 | the requests of one cycle only extend the trace's requests, and form a subsequence of the streamer list: list order, each entry at most once |
| ClientProperties.CheckPacing | src/client.rs:291 | a check keeps the trace paced: no request while the 80 ms pause after the previous one is owed |
| ClientProperties.CyclePacing | src/client.rs:224-292 | a cycle keeps the trace paced |
| ClientProperties.RoundsPacing | src/client.rs:211-293 | any number of cycles keep the trace paced |
| ClientProperties.PacedTraceWaits | src/client.rs:291 | a paced trace with N requests has slept at least N times 80 ms, less the pause still owed |
| ClientProperties.EmptyListReturns | src/client.rs:211-221 | an empty streamer list: one sleep, running cleared, and run returns Ok |
| ClientProperties.NonEmptyListKeepsRunning | src/client.rs:211-294 | a non-empty list never clears running: the run ends only by a panic |
| ClientProperties.AliceOffline | src/client.rs:236-255 | the first check of "alice", offline: entry set at 0 s, one request and the pause, nothing announced |
| ClientProperties.AliceLive | src/client.rs:226-264 | 30 s later the entry has expired: one on_stream with the record, and the user id announced |
| ClientProperties.AliceStillLive | src/client.rs:226-261 | 30 s later still live: the id is already announced, so nothing reaches the handler |
| ClientProperties.AliceGoesLive | src/client.rs:224-264 | offline, live, live again: one on_stream, one announced id, three requests |
| ClientProperties.AliceSkipped | src/client.rs:226-230 | one second after the last check: skipped, nothing changes |
| ClientProperties.AliceTimesOut | src/client.rs:266-268 | a timeout after the window: one on_error with code 1 and its documented text |
| ClientProperties.AliceUnclassified | src/client.rs:281-285 | an unclassified failure: no event, and the user id stays announced |
| ClientProperties.AliceFails | src/client.rs:226-285 | a timeout inside the window is skipped; one after it gives on_error code 1; an unclassified failure forgets nothing |
| ClientProperties.AliceScenario | src/client.rs:224-291 | the six checks together: the full trace and the announced ids afterwards |

## Left out

- Reading and writing the configuration file (src/config.rs): file-system I/O, the executable path and TOML. The configuration is an input value.
- HTTP and JSON: the request URL and headers, `reqwest`, and the `StreamsRes` decoding. Each request's outcome is an input.
- tokio: `spawn`, `yield_now` and real sleeping. Sleeps are `Wait` steps in the trace; their wall-clock effect is not modelled.
- The handler's own behaviour (src/traits.rs defaults to doing nothing): handler calls are recorded in the trace, and the handler cannot fail.
- The unsynchronised `static mut` is a field of one engine. Runs of several engines at once are not modelled.
- The client's `currently_streaming` field is kept empty, as in the source, which never uses it.
- Examples/StreamAlerts/src/main.rs is not part of this model: it is written against a different interface.
- Client.Poller.Run: models the first cycles only, as many as its input describes, because the source's loop runs forever on a non-empty list.
- ClientProperties.AtMostOneAnnouncement: bounds the on_stream calls of one run. Across runs it only bounds them through the announced ids the next run starts from.
