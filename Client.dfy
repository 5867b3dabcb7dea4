/** The polling client: construction from a configuration (`Client::new`), the
    handler builder, and the poll-cycle engine of `Client::run`.

    The engine's state is the suppression map `recent` (streamer name to the
    clock reading of its last check), the process-wide list of announced user
    ids (`C_STREAMING`), and a trace of what the engine did: sleeps, status
    requests and handler calls. A check is specified by the pure function
    `Check` over a `State` value; the class `Poller` runs the same steps in
    place and is proved to agree with it. Clock readings and the outcome of
    each status request are inputs (an `Observation` per check). */
module Client {
  import opened Wrappers
  import opened Errors

  /** Rust's `u32`. */
  type u32 = x: int | 0 <= x < 0x1_0000_0000

  /** The configuration record; reading it from a file is not modelled. */
  datatype Config = Config(
    streamers: seq<string>,
    delay: Option<u16>,
    token: Option<string>,
    userId: Option<string>)

  /** One element of the `data` array of a status response. */
  datatype StreamData = StreamData(
    id: string,
    userId: string,
    userLogin: string,
    userName: string,
    gameId: string,
    gameName: string,
    streamType: string,
    title: string,
    viewerCount: u32,
    startedAt: int,
    language: string,
    thumbnailUrl: string,
    tagsIds: Option<seq<string>>,
    tags: Option<seq<string>>,
    isMature: bool)

  /** The client value. `hasHandler` stands for `event_handler.is_some()`;
      the handler itself is modelled by the trace of calls made to it. */
  datatype Client = Client(
    clientId: string,
    token: string,
    hasHandler: bool,
    config: Config,
    currentlyStreaming: seq<string>,
    delayMs: nat)

  /** Floor of the configured inter-cycle delay, in milliseconds. */
  const MIN_DELAY_MS: nat := 80
  /** Pause after every status check, in milliseconds. */
  const PAUSE_MS: nat := 80
  /** Lifetime of an entry of the suppression map, in whole seconds. */
  const TTL_SECONDS: int := 30

  const MISSING_USER_ID: string := "Missing User ID in Config File!"
  const MISSING_TOKEN: string := "Missing User Token in Config File!"
  const MISSING_DELAY: string := "called `Option::unwrap()` on a `None` value"
  const NO_HANDLER: string := "No Event Handler Set"
  /** The prefix of the panic message raised when awaiting a check task that
      panicked because its request could not be sent; the message goes on with
      ": " and the task error's debug rendering. */
  const CHECK_PANICKED: string := "TODO: panic message"

  /** `Client::new` on an already loaded configuration. A missing user id, a
      missing token or a missing delay aborts construction (in that order of
      precedence); otherwise the delay is raised to at least 80 ms. */
  method New(c: Config) returns (r: Result<Client, string>)
    ensures r.Ok? <==> c.userId.Some? && c.token.Some? && c.delay.Some?
    ensures c.userId.None? ==> r == Err(MISSING_USER_ID)
    ensures c.userId.Some? && c.token.None? ==> r == Err(MISSING_TOKEN)
    ensures c.userId.Some? && c.token.Some? && c.delay.None? ==> r == Err(MISSING_DELAY)
    ensures r.Ok? ==> r.value.clientId == c.userId.value && r.value.token == c.token.value
    ensures r.Ok? ==> r.value.config == c && !r.value.hasHandler && r.value.currentlyStreaming == []
    ensures r.Ok? ==> MIN_DELAY_MS <= r.value.delayMs
    ensures r.Ok? ==> r.value.delayMs == c.delay.value || (c.delay.value < MIN_DELAY_MS && r.value.delayMs == MIN_DELAY_MS)
  {
    if c.userId.None? {
      return Err(MISSING_USER_ID);
    }
    if c.token.None? {
      return Err(MISSING_TOKEN);
    }
    if c.delay.None? {
      return Err(MISSING_DELAY);
    }
    var d: nat := c.delay.value;
    if d < MIN_DELAY_MS {
      d := MIN_DELAY_MS;
    }
    r := Ok(Client(c.userId.value, c.token.value, false, c, [], d));
  }

  /** `Client::event_handler`: installs a handler and keeps everything else. */
  function WithHandler(c: Client): (r: Client)
    ensures r.hasHandler
    ensures r.clientId == c.clientId && r.token == c.token && r.config == c.config
    ensures r.currentlyStreaming == c.currentlyStreaming && r.delayMs == c.delayMs
  {
    c.(hasHandler := true)
  }

  /** Which of the HTTP client's error predicates hold of a failed response
      decoding: `is_timeout`, `is_connect`, `is_status`, `is_redirect`,
      `is_request`, `is_body`, `is_builder`. */
  datatype ErrorKind = ErrorKind(
    timeout: bool,
    connect: bool,
    status: bool,
    redirect: bool,
    request: bool,
    body: bool,
    builder: bool)

  /** The error predicate tested in position `k` (1 to 7) of the chain. */
  function Flag(kind: ErrorKind, k: int): bool
  {
    if k == 1 then kind.timeout
    else if k == 2 then kind.connect
    else if k == 3 then kind.status
    else if k == 4 then kind.redirect
    else if k == 5 then kind.request
    else if k == 6 then kind.body
    else if k == 7 then kind.builder
    else false
  }

  /** The classification chain: the first predicate that holds, in the order
      timeout, connect, status, redirect, request, body, builder, decides the
      code (1 to 7) and its documented description; if none holds the error
      is unclassified. */
  function Classify(kind: ErrorKind): (r: Option<Error>)
    ensures r.None? <==> forall k | 1 <= k <= 7 :: !Flag(kind, k)
    ensures r.Some? ==> 1 <= r.value.code <= 7 && Flag(kind, r.value.code)
    ensures r.Some? ==> forall k | 1 <= k < r.value.code :: !Flag(kind, k)
    ensures r.Some? ==> Documented(r.value.code) == Some(r.value.description)
  {
    if kind.timeout then
      assert Flag(kind, 1); Some(Errors.New("An error occurred due to timing out...", 1))
    else if kind.connect then
      assert Flag(kind, 2); Some(Errors.New("An error occurred when trying to connect...", 2))
    else if kind.status then
      assert Flag(kind, 3); Some(Errors.New("Status returned as an Error...", 3))
    else if kind.redirect then
      assert Flag(kind, 4); Some(Errors.New("An error occurred due to an attempted redirect...", 4))
    else if kind.request then
      assert Flag(kind, 5); Some(Errors.New("An error occurred due to the request...", 5))
    else if kind.body then
      assert Flag(kind, 6); Some(Errors.New("An error occurred with the request or response body...", 6))
    else if kind.builder then
      assert Flag(kind, 7); Some(Errors.New("An error occurred with the type builder...", 7))
    else None
  }

  /** What one status request came back with. */
  datatype Fetch =
    | SendFailed                       // the request could not be sent: the check task panics
    | Decoded(data: seq<StreamData>)   // the body decoded; an empty `data` means offline
    | Failed(kind: ErrorKind)          // the body did not decode

  /** Inputs of one check: the clock when the suppression entry is aged, the
      clock when the new entry is stored, and the request's outcome. Clock
      readings are milliseconds. */
  datatype Observation = Observation(now: int, markedAt: int, fetch: Fetch)

  datatype Event = OnStream(streamer: string, stream: StreamData) | OnError(error: Error)

  /** What the engine does, in order: sleep, send a status request, call the handler. */
  datatype Step = Wait(ms: nat) | Request(streamer: string) | Dispatch(event: Event)

  /** The engine's state: the suppression map, the announced user ids, the
      trace so far, and the panic message once a check has panicked. */
  datatype State = State(
    recent: map<string, int>,
    streaming: seq<string>,
    trace: seq<Step>,
    halt: Option<string>)

  /** `Duration::num_seconds` of a duration in milliseconds: truncates toward zero. */
  function NumSeconds(ms: int): (s: int)
    ensures ms >= 0 ==> 1000 * s <= ms < 1000 * s + 1000
    ensures ms < 0 ==> 1000 * s - 1000 < ms <= 1000 * s
  {
    if ms >= 0 then ms / 1000 else -((-ms) / 1000)
  }

  /** A streamer is skipped while its entry is fewer than 30 whole seconds
      old. Because `num_seconds` truncates toward zero, that is exactly while
      the entry is less than 30 000 ms old, or stamped in the future. */
  predicate Suppressed(recent: map<string, int>, s: string, now: int): (b: bool)
    ensures b <==> s in recent && now - recent[s] < 1000 * TTL_SECONDS
  {
    s in recent && TTL_SECONDS > NumSeconds(now - recent[s])
  }

  /** `a` is a subsequence of `b`: its elements occur in `b` in the same order. */
  predicate IsSubseq<T(==)>(a: seq<T>, b: seq<T>)
    decreases |b|
  {
    if a == [] then true
    else if b == [] then false
    else (a[0] == b[0] && IsSubseq(a[1..], b[1..])) || IsSubseq(a, b[1..])
  }

  /** `Vec::retain(|x| x != s)`: drops every occurrence of `x`, keeps the
      other elements in their order. */
  function Without(xs: seq<string>, x: string): (r: seq<string>)
    ensures multiset(r) == multiset(xs)[x := 0]
    ensures IsSubseq(r, xs)
    ensures x !in xs ==> r == xs
  {
    if xs == [] then []
    else
      assert xs == [xs[0]] + xs[1..];
      if xs[0] == x then Without(xs[1..], x)
    else
      var rest := Without(xs[1..], x);
      assert ([xs[0]] + rest)[1..] == rest;
      [xs[0]] + rest
  }

  /** Storing the new suppression entry and sending the status request. */
  function Mark(st: State, s: string, at: int): (r: State)
    ensures s in r.recent && r.recent[s] == at
    ensures forall n | n in st.recent && n != s :: n in r.recent && r.recent[n] == st.recent[n]
    ensures r.recent.Keys == st.recent.Keys + {s}
    ensures r.trace == st.trace + [Request(s)]
    ensures r.streaming == st.streaming && r.halt == st.halt
  {
    st.(recent := st.recent[s := at], trace := st.trace + [Request(s)])
  }

  /** The body of the check task for streamer `s` once the request returned,
      followed by the pause before the next streamer. */
  function Respond(st: State, s: string, fetch: Fetch): (r: State)
    ensures r.recent == st.recent
    ensures r.halt == if fetch.SendFailed? then Some(CHECK_PANICKED) else st.halt
    ensures fetch.SendFailed? ==> r.trace == st.trace && r.streaming == st.streaming
    ensures !fetch.SendFailed? ==>
      && |st.trace| < |r.trace| <= |st.trace| + 2
      && r.trace[..|st.trace|] == st.trace
      && r.trace[|r.trace| - 1] == Wait(PAUSE_MS)
  {
    match fetch
    case SendFailed =>
      st.(halt := Some(CHECK_PANICKED))
    case Decoded(data) =>
      if |data| == 0 || data[0].userId in st.streaming then
        st.(trace := st.trace + [Wait(PAUSE_MS)])
      else
        st.(streaming := st.streaming + [data[0].userId],
            trace := st.trace + [Dispatch(OnStream(s, data[0]))] + [Wait(PAUSE_MS)])
    case Failed(kind) =>
      match Classify(kind)
      case Some(e) =>
        st.(trace := st.trace + [Dispatch(OnError(e))] + [Wait(PAUSE_MS)])
      case None =>
        var kept := if s in st.streaming then Without(st.streaming, s) else st.streaming;
        st.(streaming := kept, trace := st.trace + [Wait(PAUSE_MS)])
  }

  /** One iteration of the inner loop of `Client::run` for streamer `s`. */
  function Check(st: State, s: string, o: Observation): (r: State)
    ensures |st.trace| <= |r.trace| && r.trace[..|st.trace|] == st.trace
    ensures st.halt.Some? || Suppressed(st.recent, s, o.now) ==> r == st
  {
    if st.halt.Some? || Suppressed(st.recent, s, o.now) then st
    else Respond(Mark(st, s, o.markedAt), s, o.fetch)
  }

  /** The inner `for` loop: checks the streamers in list order, stopping at a panic. */
  function Cycle(st: State, ss: seq<string>, os: seq<Observation>): (r: State)
    requires |ss| == |os|
    ensures |st.trace| <= |r.trace| && r.trace[..|st.trace|] == st.trace
    ensures st.halt.Some? ==> r == st
    ensures r.halt == st.halt || (st.halt.None? && r.halt == Some(CHECK_PANICKED))
    decreases |ss|
  {
    if |ss| == 0 || st.halt.Some? then st
    else Cycle(Check(st, ss[0], os[0]), ss[1..], os[1..])
  }

  /** One iteration of the outer loop: sleep for the configured delay, clear
      `running` when the list is empty, check every streamer. */
  function Round(c: Client, st: State, os: seq<Observation>): (r: (State, bool))
    requires |os| == |c.config.streamers|
    ensures r.1 <==> |c.config.streamers| > 0
    ensures |st.trace| < |r.0.trace| && r.0.trace[..|st.trace| + 1] == st.trace + [Wait(c.delayMs)]
  {
    (Cycle(st.(trace := st.trace + [Wait(c.delayMs)]), c.config.streamers, os),
     |c.config.streamers| > 0)
  }

  /** The environment supplies one observation per configured streamer per cycle. */
  predicate Fits(c: Client, obs: seq<seq<Observation>>)
  {
    forall k | 0 <= k < |obs| :: |obs[k]| == |c.config.streamers|
  }

  /** The outer `while running` loop over as many cycles as `obs` describes. */
  function Rounds(c: Client, st: State, running: bool, obs: seq<seq<Observation>>): (r: (State, bool))
    requires Fits(c, obs)
    ensures |st.trace| <= |r.0.trace| && r.0.trace[..|st.trace|] == st.trace
    ensures !running || st.halt.Some? ==> r == (st, running)
    ensures r.1 ==> running
    ensures r.0.halt == st.halt || (st.halt.None? && r.0.halt == Some(CHECK_PANICKED))
    decreases |obs|
  {
    if |obs| == 0 || !running || st.halt.Some? then (st, running)
    else
      var next := Round(c, st, obs[0]);
      var r := Rounds(c, next.0, next.1, obs[1..]);
      PrefixOfPrefix(st.trace, st.trace + [Wait(c.delayMs)], next.0.trace, r.0.trace);
      r
  }

  /** A prefix of a prefix of a prefix of `c` is a prefix of `c`. */
  lemma PrefixOfPrefix(a: seq<Step>, a': seq<Step>, b: seq<Step>, c: seq<Step>)
    requires |a| <= |a'| && a'[..|a|] == a
    requires |a'| <= |b| && b[..|a'|] == a'
    requires |b| <= |c| && c[..|b|] == b
    ensures |a| <= |c| && c[..|a|] == a
  {
    assert c[..|a|] == b[..|a'|][..|a|];
  }

  /** The state `run` starts from: an empty suppression map; the announced
      ids and the trace are process-wide and carry over. */
  function Start(streaming: seq<string>, trace: seq<Step>): State
  {
    State(map[], streaming, trace, None)
  }

  datatype RunOutcome =
    | Returned              // `run` returned `Ok(())`
    | Panicked(message: string)
    | StillRunning          // the loop goes on past the cycles described

  function Outcome(st: State, running: bool): RunOutcome
  {
    if st.halt.Some? then Panicked(st.halt.value)
    else if !running then Returned
    else StillRunning
  }

  /** The engine of `Client::run`, over its process-wide and per-run state. */
  class Poller {
    var recent: map<string, int>
    var streaming: seq<string>
    var trace: seq<Step>
    var halt: Option<string>
    var running: bool

    /** A fresh process: nothing announced, nothing done. */
    constructor ()
      ensures recent == map[] && streaming == [] && trace == []
      ensures halt == None && !running
    {
      recent := map[];
      streaming := [];
      trace := [];
      halt := None;
      running := false;
    }

    function Snapshot(): State
      reads this
    {
      State(recent, streaming, trace, halt)
    }

    /** One streamer of the inner loop. */
    method CheckOne(s: string, o: Observation)
      requires halt.None?
      modifies this
      ensures Snapshot() == Check(old(Snapshot()), s, o)
      ensures running == old(running)
    {
      ghost var before := recent;
      if s in recent {
        if TTL_SECONDS > NumSeconds(o.now - recent[s]) {
          return;
        }
        recent := recent - {s};
      }
      recent := recent[s := o.markedAt];
      assert recent == before[s := o.markedAt];
      trace := trace + [Request(s)];
      assert Snapshot() == Mark(old(Snapshot()), s, o.markedAt);
      HandleResponse(s, o.fetch);
    }

    /** The check task once its request returned, and the pause after it. */
    method HandleResponse(s: string, fetch: Fetch)
      modifies this
      ensures Snapshot() == Respond(old(Snapshot()), s, fetch)
      ensures running == old(running)
    {
      match fetch {
        case SendFailed =>
          halt := Some(CHECK_PANICKED);
          return;
        case Decoded(data) =>
          if |data| != 0 {
            var info := data[0];
            if info.userId !in streaming {
              streaming := streaming + [info.userId];
              trace := trace + [Dispatch(OnStream(s, info))];
            }
          }
        case Failed(kind) =>
          var e := Classify(kind);
          if e.Some? {
            trace := trace + [Dispatch(OnError(e.value))];
          } else if s in streaming {
            streaming := Without(streaming, s);
          }
      }
      trace := trace + [Wait(PAUSE_MS)];
    }

    /** The inner `for` loop over the configured streamers. */
    method RunCycle(ss: seq<string>, os: seq<Observation>)
      requires |ss| == |os|
      modifies this
      ensures Snapshot() == Cycle(old(Snapshot()), ss, os)
      ensures running == old(running)
    {
      var i := 0;
      while i < |ss| && halt.None?
        invariant 0 <= i <= |ss|
        invariant Cycle(old(Snapshot()), ss, os) == Cycle(Snapshot(), ss[i..], os[i..])
        invariant running == old(running)
      {
        assert ss[i..][1..] == ss[i + 1..] && os[i..][1..] == os[i + 1..];
        CheckOne(ss[i], os[i]);
        i := i + 1;
      }
    }

    /** `Client::run` over the cycles `obs` describes. Without a handler it
        panics before doing anything. */
    method Run(c: Client, obs: seq<seq<Observation>>) returns (r: RunOutcome)
      requires Fits(c, obs)
      modifies this
      ensures !c.hasHandler ==> r == Panicked(NO_HANDLER) && Snapshot() == old(Snapshot())
      ensures c.hasHandler ==> (Snapshot(), running) == Rounds(c, Start(old(streaming), old(trace)), true, obs)
      ensures c.hasHandler ==> r == Outcome(Snapshot(), running)
    {
      if !c.hasHandler {
        return Panicked(NO_HANDLER);
      }
      recent := map[];
      halt := None;
      running := true;
      var k := 0;
      while running && halt.None? && k < |obs|
        invariant 0 <= k <= |obs|
        invariant Rounds(c, Start(old(streaming), old(trace)), true, obs) == Rounds(c, Snapshot(), running, obs[k..])
      {
        assert obs[k..][1..] == obs[k + 1..];
        trace := trace + [Wait(c.delayMs)];
        var streamers := c.config.streamers;
        if |streamers| == 0 {
          running := false;
        }
        RunCycle(streamers, obs[k]);
        k := k + 1;
      }
      r := Outcome(Snapshot(), running);
    }
  }
}
