/** What the poll-cycle engine of `Client::run` guarantees: suppression within
    the 30-second window, at most one `on_stream` per user id, one `on_error`
    per classified failure, streamers requested in list order, a pause of at
    least 80 ms between requests, and termination only on an empty list. */
module ClientProperties {
  import opened Wrappers
  import opened Errors
  import opened Client

  // ---------------------------------------------------------------------------
  // Observers of a trace, each defined by its last step.

  /** The streamers requested, in order. */
  function Requests(tr: seq<Step>): seq<string>
  {
    if tr == [] then []
    else
      var last := tr[|tr| - 1];
      Requests(tr[..|tr| - 1]) + (if last.Request? then [last.streamer] else [])
  }

  /** Is `x` an `on_stream` call for user id `u`? */
  predicate AnnouncesId(x: Step, u: string)
  {
    x.Dispatch? && x.event.OnStream? && x.event.stream.userId == u
  }

  /** The number of `on_stream` calls for user id `u`. */
  function Announces(tr: seq<Step>, u: string): nat
  {
    if tr == [] then 0
    else Announces(tr[..|tr| - 1], u) + (if AnnouncesId(tr[|tr| - 1], u) then 1 else 0)
  }

  /** Total time slept, in milliseconds. */
  function Waited(tr: seq<Step>): nat
  {
    if tr == [] then 0
    else
      var last := tr[|tr| - 1];
      Waited(tr[..|tr| - 1]) + (if last.Wait? then last.ms else 0)
  }

  /** Was a request sent that has not yet been followed by a pause of at least 80 ms? */
  predicate Owed(tr: seq<Step>)
  {
    if tr == [] then false
    else
      var last := tr[|tr| - 1];
      if last.Request? then true
      else if last.Wait? && last.ms >= PAUSE_MS then false
      else Owed(tr[..|tr| - 1])
  }

  /** No request is sent while the pause after the previous one is still owed. */
  predicate Paced(tr: seq<Step>)
  {
    forall i | 0 <= i < |tr| && tr[i].Request? :: !Owed(tr[..i])
  }

  lemma SnocPrefix(tr: seq<Step>, x: Step)
    ensures (tr + [x])[..|tr|] == tr
  {
  }

  lemma RequestsSnoc(tr: seq<Step>, x: Step)
    ensures Requests(tr + [x]) == Requests(tr) + (if x.Request? then [x.streamer] else [])
  {
    SnocPrefix(tr, x);
  }

  // ---------------------------------------------------------------------------
  // Suppression.

  /** A check goes ahead when no panic has happened and the streamer is not suppressed. */
  predicate Checked(st: State, s: string, o: Observation)
  {
    st.halt.None? && !Suppressed(st.recent, s, o.now)
  }

  /** A streamer checked fewer than 30 s ago is skipped: no request, no
      event, suppression map and announced ids unchanged. */
  lemma SkipsWithinWindow(st: State, s: string, o: Observation)
    requires s in st.recent && o.now - st.recent[s] < 1000 * TTL_SECONDS
    ensures Check(st, s, o) == st
  {
  }

  /** Two steps that are not requests. */
  lemma QuietPair(tr: seq<Step>, x: Step, y: Step)
    requires !x.Request? && !y.Request?
    ensures Requests(tr + [x] + [y]) == Requests(tr)
  {
    RequestsSnoc(tr, x);
    RequestsSnoc(tr + [x], y);
  }

  /** Handling a response sends no further request. */
  lemma RespondSendsNothing(st: State, s: string, fetch: Fetch)
    ensures Requests(Respond(st, s, fetch).trace) == Requests(st.trace)
  {
    match fetch
    case SendFailed =>
    case Decoded(data) =>
      if |data| > 0 && data[0].userId !in st.streaming {
        QuietPair(st.trace, Dispatch(OnStream(s, data[0])), Wait(PAUSE_MS));
      } else {
        RequestsSnoc(st.trace, Wait(PAUSE_MS));
      }
    case Failed(kind) =>
      if Classify(kind).Some? {
        QuietPair(st.trace, Dispatch(OnError(Classify(kind).value)), Wait(PAUSE_MS));
      } else {
        RequestsSnoc(st.trace, Wait(PAUSE_MS));
      }
  }

  /** Otherwise the streamer is re-marked with the second clock reading
      before exactly one request is sent for it. */
  lemma MarksBeforeRequest(st: State, s: string, o: Observation)
    requires st.halt.None?
    requires s !in st.recent || o.now - st.recent[s] >= 1000 * TTL_SECONDS
    ensures var r := Check(st, s, o);
      && s in r.recent && r.recent[s] == o.markedAt
      && r.recent.Keys == st.recent.Keys + {s}
      && (forall n | n in st.recent && n != s :: r.recent[n] == st.recent[n])
      && r.trace[|st.trace|] == Request(s)
      && Requests(r.trace) == Requests(st.trace) + [s]
  {
    var m := Mark(st, s, o.markedAt);
    assert Check(st, s, o) == Respond(m, s, o.fetch);
    RequestsSnoc(st.trace, Request(s));
    RespondSendsNothing(m, s, o.fetch);
  }

  /** The requests one check adds: its streamer if it was checked, none otherwise. */
  lemma CheckRequests(st: State, s: string, o: Observation)
    ensures Requests(Check(st, s, o).trace) == Requests(st.trace) + if Checked(st, s, o) then [s] else []
  {
    if Checked(st, s, o) {
      MarksBeforeRequest(st, s, o);
    } else {
      assert Requests(st.trace) + [] == Requests(st.trace);
    }
  }

  // ---------------------------------------------------------------------------
  // The outcome of one check.

  /** Offline: no event, announced ids unchanged. */
  lemma OfflineIsQuiet(st: State, s: string, o: Observation)
    requires Checked(st, s, o) && o.fetch == Decoded([])
    ensures var r := Check(st, s, o);
      r.streaming == st.streaming && r.halt.None? && r.trace == st.trace + [Request(s), Wait(PAUSE_MS)]
  {
  }

  /** Live, and the user id was already announced: no event. */
  lemma AnnouncedIsQuiet(st: State, s: string, o: Observation)
    requires Checked(st, s, o) && o.fetch.Decoded? && |o.fetch.data| > 0
    requires o.fetch.data[0].userId in st.streaming
    ensures var r := Check(st, s, o);
      r.streaming == st.streaming && r.halt.None? && r.trace == st.trace + [Request(s), Wait(PAUSE_MS)]
  {
  }

  /** Live with a new user id: exactly one `on_stream` with the first stream
      record, and the id is appended to the announced ids. */
  lemma NewLiveAnnounces(st: State, s: string, o: Observation)
    requires Checked(st, s, o) && o.fetch.Decoded? && |o.fetch.data| > 0
    requires o.fetch.data[0].userId !in st.streaming
    ensures var r := Check(st, s, o);
      && r.streaming == st.streaming + [o.fetch.data[0].userId] && r.halt.None?
      && r.trace == st.trace + [Request(s), Dispatch(OnStream(s, o.fetch.data[0])), Wait(PAUSE_MS)]
  {
  }

  /** A classified failure: exactly one `on_error` with the classified error;
      announced ids unchanged. */
  lemma ClassifiedFailureReports(st: State, s: string, o: Observation)
    requires Checked(st, s, o) && o.fetch.Failed? && Classify(o.fetch.kind).Some?
    ensures var r := Check(st, s, o);
      && r.streaming == st.streaming && r.halt.None?
      && r.trace == st.trace + [Request(s), Dispatch(OnError(Classify(o.fetch.kind).value)), Wait(PAUSE_MS)]
  {
  }

  /** An unclassified failure: no event; every announced id equal to the
      streamer's name is forgotten and the others keep their order. */
  lemma UnclassifiedFailureForgets(st: State, s: string, o: Observation)
    requires Checked(st, s, o) && o.fetch.Failed? && Classify(o.fetch.kind).None?
    ensures var r := Check(st, s, o);
      && s !in r.streaming
      && IsSubseq(r.streaming, st.streaming)
      && (forall u | u != s :: multiset(r.streaming)[u] == multiset(st.streaming)[u])
      && r.halt.None? && r.trace == st.trace + [Request(s), Wait(PAUSE_MS)]
  {
    var r := Check(st, s, o);
    if s in st.streaming {
      assert multiset(r.streaming)[s] == 0;
    } else {
      SubseqRefl(st.streaming);
    }
  }

  /** A request that cannot be sent panics the run after the request. */
  lemma SendFailurePanics(st: State, s: string, o: Observation)
    requires Checked(st, s, o) && o.fetch == SendFailed
    ensures var r := Check(st, s, o);
      r.halt == Some(CHECK_PANICKED) && r.streaming == st.streaming && r.trace == st.trace + [Request(s)]
  {
  }

  // ---------------------------------------------------------------------------
  // Classification.

  /** Every documented HTTP client code 1 to 7 is produced by some error. */
  lemma EveryCodeReachable(code: u16)
    requires 1 <= code <= 7
    ensures exists kind :: Classify(kind) == Some(Error(code, Documented(code).value))
  {
    var none := ErrorKind(false, false, false, false, false, false, false);
    var kind :=
      if code == 1 then none.(timeout := true)
      else if code == 2 then none.(connect := true)
      else if code == 3 then none.(status := true)
      else if code == 4 then none.(redirect := true)
      else if code == 5 then none.(request := true)
      else if code == 6 then none.(body := true)
      else none.(builder := true);
    assert Classify(kind) == Some(Error(code, Documented(code).value));
  }

  // ---------------------------------------------------------------------------
  // Announced ids never repeat.

  /** Every element occurs exactly once. */
  predicate NoDup(xs: seq<string>)
  {
    forall u | u in multiset(xs) :: multiset(xs)[u] == 1
  }

  lemma {:induction false} CheckNoDup(st: State, s: string, o: Observation)
    requires NoDup(st.streaming)
    ensures NoDup(Check(st, s, o).streaming)
  {
    var r := Check(st, s, o);
    if Checked(st, s, o) && o.fetch.Decoded? && |o.fetch.data| > 0 && o.fetch.data[0].userId !in st.streaming {
      var v := o.fetch.data[0].userId;
      assert r.streaming == st.streaming + [v];
      assert multiset(r.streaming) == multiset(st.streaming) + multiset{v};
    } else if Checked(st, s, o) && o.fetch.Failed? && Classify(o.fetch.kind).None? && s in st.streaming {
      assert r.streaming == Without(st.streaming, s);
    }
  }

  lemma {:induction false} CycleNoDup(st: State, ss: seq<string>, os: seq<Observation>)
    requires |ss| == |os| && NoDup(st.streaming)
    ensures NoDup(Cycle(st, ss, os).streaming)
    decreases |ss|
  {
    if |ss| > 0 && st.halt.None? {
      CheckNoDup(st, ss[0], os[0]);
      CycleNoDup(Check(st, ss[0], os[0]), ss[1..], os[1..]);
    }
  }

  /** `C_STREAMING` never holds a user id twice, over any number of cycles. */
  lemma {:induction false} RoundsNoDup(c: Client, st: State, running: bool, obs: seq<seq<Observation>>)
    requires Fits(c, obs) && NoDup(st.streaming)
    ensures NoDup(Rounds(c, st, running, obs).0.streaming)
    decreases |obs|
  {
    if |obs| > 0 && running && st.halt.None? {
      var next := Round(c, st, obs[0]);
      CycleNoDup(st.(trace := st.trace + [Wait(c.delayMs)]), c.config.streamers, obs[0]);
      RoundsNoDup(c, next.0, next.1, obs[1..]);
    }
  }

  /** The check ends in an unclassified failure, the only way an announced
      id is forgotten. */
  predicate Forgets(o: Observation)
  {
    o.fetch.Failed? && Classify(o.fetch.kind).None?
  }

  /** From `st0` to `st`, user id `u` was announced at most once more than
      it was added to the announced ids, and not at all if it was already
      there (1 for membership, 0 otherwise). */
  predicate Bounded(st0: State, st: State, u: string)
  {
    Announces(st.trace, u) + (if u in st0.streaming then 1 else 0)
      <= Announces(st0.trace, u) + (if u in st.streaming then 1 else 0)
  }

  lemma AnnouncesSnoc(tr: seq<Step>, x: Step, u: string)
    ensures Announces(tr + [x], u) == Announces(tr, u) + (if AnnouncesId(x, u) then 1 else 0)
  {
    SnocPrefix(tr, x);
  }

  /** A new `on_stream` for user id `v`, then the pause. */
  lemma AnnounceBounded(st: State, s: string, d: StreamData, u: string)
    requires d.userId !in st.streaming
    ensures var e := Dispatch(OnStream(s, d));
      Bounded(st, st.(streaming := st.streaming + [d.userId], trace := st.trace + [e] + [Wait(PAUSE_MS)]), u)
  {
    var e := Dispatch(OnStream(s, d));
    AnnouncesSnoc(st.trace, e, u);
    AnnouncesSnoc(st.trace + [e], Wait(PAUSE_MS), u);
  }

  /** A step that calls no `on_stream` and keeps the announced ids. */
  lemma QuietBounded(st: State, x: Step, u: string)
    requires !AnnouncesId(x, u)
    ensures Bounded(st, st.(trace := st.trace + [x]), u)
  {
    AnnouncesSnoc(st.trace, x, u);
  }

  lemma RespondBounded(st: State, s: string, fetch: Fetch, u: string)
    requires s == u ==> !(fetch.Failed? && Classify(fetch.kind).None?)
    ensures Bounded(st, Respond(st, s, fetch), u)
  {
    match fetch
    case SendFailed =>
    case Decoded(data) =>
      if |data| > 0 && data[0].userId !in st.streaming {
        AnnounceBounded(st, s, data[0], u);
      } else {
        QuietBounded(st, Wait(PAUSE_MS), u);
      }
    case Failed(kind) =>
      if Classify(kind).Some? {
        var e := Dispatch(OnError(Classify(kind).value));
        QuietBounded(st, e, u);
        var st' := st.(trace := st.trace + [e]);
        QuietBounded(st', Wait(PAUSE_MS), u);
      } else {
        var kept := if s in st.streaming then Without(st.streaming, s) else st.streaming;
        assert multiset(kept)[u] == multiset(st.streaming)[u];
        assert u in kept <==> u in st.streaming;
        QuietBounded(st, Wait(PAUSE_MS), u);
      }
  }

  lemma CheckBounded(st: State, s: string, o: Observation, u: string)
    requires s == u ==> !Forgets(o)
    ensures Bounded(st, Check(st, s, o), u)
  {
    if Checked(st, s, o) {
      QuietBounded(st, Request(s), u);
      RespondBounded(Mark(st, s, o.markedAt), s, o.fetch, u);
    }
  }

  lemma {:induction false} CycleBounded(st: State, ss: seq<string>, os: seq<Observation>, u: string)
    requires |ss| == |os|
    requires forall i | 0 <= i < |ss| && ss[i] == u :: !Forgets(os[i])
    ensures Bounded(st, Cycle(st, ss, os), u)
    decreases |ss|
  {
    if |ss| > 0 && st.halt.None? {
      var st1 := Check(st, ss[0], os[0]);
      CheckBounded(st, ss[0], os[0], u);
      assert forall i | 0 <= i < |ss| - 1 && ss[1..][i] == u :: !Forgets(os[1..][i]) by {
        forall i | 0 <= i < |ss| - 1 && ss[1..][i] == u ensures !Forgets(os[1..][i]) {
          assert ss[1..][i] == ss[i + 1] && os[1..][i] == os[i + 1];
        }
      }
      CycleBounded(st1, ss[1..], os[1..], u);
    }
  }

  lemma {:induction false} RoundsBounded(c: Client, st: State, running: bool, obs: seq<seq<Observation>>, u: string)
    requires Fits(c, obs)
    requires forall k, i | 0 <= k < |obs| && 0 <= i < |c.config.streamers| && c.config.streamers[i] == u :: !Forgets(obs[k][i])
    ensures Bounded(st, Rounds(c, st, running, obs).0, u)
    decreases |obs|
  {
    if |obs| > 0 && running && st.halt.None? {
      var waited := st.(trace := st.trace + [Wait(c.delayMs)]);
      AnnouncesSnoc(st.trace, Wait(c.delayMs), u);
      CycleBounded(waited, c.config.streamers, obs[0], u);
      var next := Round(c, st, obs[0]);
      assert forall k, i | 0 <= k < |obs| - 1 && 0 <= i < |c.config.streamers| && c.config.streamers[i] == u :: !Forgets(obs[1..][k][i]) by {
        forall k, i | 0 <= k < |obs| - 1 && 0 <= i < |c.config.streamers| && c.config.streamers[i] == u
          ensures !Forgets(obs[1..][k][i])
        {
          assert obs[1..][k] == obs[k + 1];
        }
      }
      RoundsBounded(c, next.0, next.1, obs[1..], u);
    }
  }

  /** Over a whole run, user id `u` gets at most one `on_stream`, and none if
      it was already announced when the run started, unless some check of a
      streamer whose name equals `u` ends in an unclassified failure (the
      only path that forgets an announced id). */
  lemma AtMostOneAnnouncement(c: Client, streaming: seq<string>, trace: seq<Step>, obs: seq<seq<Observation>>, u: string)
    requires Fits(c, obs)
    requires forall k, i | 0 <= k < |obs| && 0 <= i < |c.config.streamers| && c.config.streamers[i] == u :: !Forgets(obs[k][i])
    ensures Announces(Rounds(c, Start(streaming, trace), true, obs).0.trace, u)
      <= Announces(trace, u) + (if u in streaming then 0 else 1)
  {
    RoundsBounded(c, Start(streaming, trace), true, obs, u);
  }

  /** The forgetting path compares the streamer's login name with announced
      user ids, so an id that is no configured login is announced at most
      once per process, whatever the checks return: going offline does not
      make it announceable again. */
  lemma IdsOutsideTheListAnnouncedOnce(c: Client, streaming: seq<string>, trace: seq<Step>, obs: seq<seq<Observation>>, u: string)
    requires Fits(c, obs)
    requires u !in c.config.streamers
    ensures Announces(Rounds(c, Start(streaming, trace), true, obs).0.trace, u)
      <= Announces(trace, u) + (if u in streaming then 0 else 1)
  {
    AtMostOneAnnouncement(c, streaming, trace, obs, u);
  }

  // ---------------------------------------------------------------------------
  // Order and pacing of requests.

  lemma {:induction false} SubseqRefl<T>(a: seq<T>)
    ensures IsSubseq(a, a)
    decreases |a|
  {
    if a != [] {
      SubseqRefl(a[1..]);
    }
  }

  lemma SubseqCons<T>(x: T, a: seq<T>, b: seq<T>)
    requires IsSubseq(a, b)
    ensures IsSubseq([x] + a, [x] + b)
  {
    assert ([x] + a)[1..] == a && ([x] + b)[1..] == b;
  }

  lemma SubseqTail<T>(a: seq<T>, b: seq<T>)
    requires |b| > 0 && IsSubseq(a, b[1..])
    ensures IsSubseq(a, b)
  {
  }

  /** The requests of one cycle are a subsequence of the streamer list: list
      order, each entry at most once. */
  lemma {:induction false} CycleRequestsInOrder(st: State, ss: seq<string>, os: seq<Observation>)
    requires |ss| == |os|
    ensures var before, after := Requests(st.trace), Requests(Cycle(st, ss, os).trace);
      && |before| <= |after| && after[..|before|] == before
      && IsSubseq(after[|before|..], ss)
    decreases |ss|
  {
    var before, after := Requests(st.trace), Requests(Cycle(st, ss, os).trace);
    if |ss| == 0 || st.halt.Some? {
      assert after[|before|..] == [];
    } else {
      var st1 := Check(st, ss[0], os[0]);
      assert Cycle(st, ss, os) == Cycle(st1, ss[1..], os[1..]);
      CycleRequestsInOrder(st1, ss[1..], os[1..]);
      CheckRequests(st, ss[0], os[0]);
      SubseqStep(before, Requests(st1.trace), after, ss, Checked(st, ss[0], os[0]));
    }
  }

  /** The sequence step of `CycleRequestsInOrder`: the first check added its
      streamer or nothing, the rest of the cycle a subsequence of the tail. */
  lemma SubseqStep(before: seq<string>, mid: seq<string>, after: seq<string>, ss: seq<string>, checked: bool)
    requires |ss| > 0
    requires mid == before + if checked then [ss[0]] else []
    requires |mid| <= |after| && after[..|mid|] == mid && IsSubseq(after[|mid|..], ss[1..])
    ensures |before| <= |after| && after[..|before|] == before
    ensures IsSubseq(after[|before|..], ss)
  {
    var rest := after[|mid|..];
    assert after == mid + rest;
    if checked {
      assert after[|before|..] == [ss[0]] + rest;
      assert ss == [ss[0]] + ss[1..];
      SubseqCons(ss[0], rest, ss[1..]);
    } else {
      SubseqTail(rest, ss);
    }
  }

  lemma {:induction false} PacedSnoc(tr: seq<Step>, x: Step)
    requires Paced(tr)
    requires x.Request? ==> !Owed(tr)
    ensures Paced(tr + [x])
    ensures Owed(tr + [x]) == (x.Request? || (!(x.Wait? && x.ms >= PAUSE_MS) && Owed(tr)))
  {
    SnocPrefix(tr, x);
    forall i | 0 <= i < |tr + [x]| && (tr + [x])[i].Request? ensures !Owed((tr + [x])[..i]) {
      if i < |tr| {
        assert (tr + [x])[..i] == tr[..i];
      }
    }
  }

  /** The pacing invariant: no request without the pause after the previous
      one, and, unless a check panicked, no pause still owed. */
  predicate PacingHolds(st: State)
  {
    Paced(st.trace) && (st.halt.None? ==> !Owed(st.trace))
  }

  lemma CheckPacing(st: State, s: string, o: Observation)
    requires PacingHolds(st)
    ensures PacingHolds(Check(st, s, o))
  {
    if Checked(st, s, o) {
      var m := Mark(st, s, o.markedAt);
      PacedSnoc(st.trace, Request(s));
      match o.fetch
      case SendFailed =>
      case Decoded(data) =>
        if |data| > 0 && data[0].userId !in st.streaming {
          var e := Dispatch(OnStream(s, data[0]));
          PacedSnoc(m.trace, e);
          PacedSnoc(m.trace + [e], Wait(PAUSE_MS));
        } else {
          PacedSnoc(m.trace, Wait(PAUSE_MS));
        }
      case Failed(kind) =>
        if Classify(kind).Some? {
          var e := Dispatch(OnError(Classify(kind).value));
          PacedSnoc(m.trace, e);
          PacedSnoc(m.trace + [e], Wait(PAUSE_MS));
        } else {
          PacedSnoc(m.trace, Wait(PAUSE_MS));
        }
    }
  }

  lemma {:induction false} CyclePacing(st: State, ss: seq<string>, os: seq<Observation>)
    requires |ss| == |os| && PacingHolds(st)
    ensures PacingHolds(Cycle(st, ss, os))
    decreases |ss|
  {
    if |ss| > 0 && st.halt.None? {
      CheckPacing(st, ss[0], os[0]);
      CyclePacing(Check(st, ss[0], os[0]), ss[1..], os[1..]);
    }
  }

  /** Over any number of cycles, requests stay paced. */
  lemma {:induction false} RoundsPacing(c: Client, st: State, running: bool, obs: seq<seq<Observation>>)
    requires Fits(c, obs) && PacingHolds(st)
    ensures PacingHolds(Rounds(c, st, running, obs).0)
    decreases |obs|
  {
    if |obs| > 0 && running && st.halt.None? {
      PacedSnoc(st.trace, Wait(c.delayMs));
      CyclePacing(st.(trace := st.trace + [Wait(c.delayMs)]), c.config.streamers, obs[0]);
      var next := Round(c, st, obs[0]);
      RoundsPacing(c, next.0, next.1, obs[1..]);
    }
  }

  /** A paced trace with N requests has slept at least N times 80 ms, less
      the pause still owed after the last request. */
  lemma {:induction false} PacedTraceWaits(tr: seq<Step>)
    requires Paced(tr)
    ensures PAUSE_MS * |Requests(tr)| <= Waited(tr) + (if Owed(tr) then PAUSE_MS else 0)
    decreases |tr|
  {
    if tr != [] {
      var p := tr[..|tr| - 1];
      assert Paced(p) by {
        forall i | 0 <= i < |p| && p[i].Request? ensures !Owed(p[..i]) {
          assert p[..i] == tr[..i] && p[i] == tr[i];
        }
      }
      PacedTraceWaits(p);
    }
  }

  // ---------------------------------------------------------------------------
  // Termination.

  /** An empty streamer list: one sleep, then `run` returns `Ok`. */
  lemma EmptyListReturns(c: Client, st: State, obs: seq<seq<Observation>>)
    requires Fits(c, obs) && c.config.streamers == [] && |obs| > 0 && st.halt.None?
    ensures Rounds(c, st, true, obs) == (st.(trace := st.trace + [Wait(c.delayMs)]), false)
    ensures Outcome(Rounds(c, st, true, obs).0, Rounds(c, st, true, obs).1) == Returned
  {
  }

  /** A non-empty streamer list never stops the loop: `run` only ends by a panic. */
  lemma {:induction false} NonEmptyListKeepsRunning(c: Client, st: State, obs: seq<seq<Observation>>)
    requires Fits(c, obs) && |c.config.streamers| > 0
    ensures Rounds(c, st, true, obs).1
    ensures Outcome(Rounds(c, st, true, obs).0, Rounds(c, st, true, obs).1) != Returned
    decreases |obs|
  {
    if |obs| > 0 && st.halt.None? {
      var next := Round(c, st, obs[0]);
      NonEmptyListKeepsRunning(c, next.0, obs[1..]);
    }
  }

  // ---------------------------------------------------------------------------
  // A worked scenario.

  const NO_FLAGS: ErrorKind := ErrorKind(false, false, false, false, false, false, false)
  const TIMED_OUT: ErrorKind := NO_FLAGS.(timeout := true)

  /** Offline at 0 s, from a state with no entry and nothing announced: the
      entry is set, one request and the pause follow, nothing is announced. */
  lemma AliceOffline(st: State)
    requires st.recent == map[] && st.streaming == [] && st.halt.None?
    ensures Check(st, "alice", Observation(0, 0, Decoded([])))
         == State(map["alice" := 0], [], st.trace + [Request("alice"), Wait(PAUSE_MS)], None)
  {
    assert Mark(st, "alice", 0).recent == map["alice" := 0];
  }

  /** Live at 30 s, exactly when the entry from 0 s expires: one `on_stream`
      with the record, and the user id is announced. */
  lemma AliceLive(st: State, d: StreamData)
    requires d.userId == "141981764"
    requires st.recent == map["alice" := 0] && st.streaming == [] && st.halt.None?
    ensures Check(st, "alice", Observation(30000, 30000, Decoded([d])))
         == State(map["alice" := 30000], ["141981764"],
                  st.trace + [Request("alice"), Dispatch(OnStream("alice", d)), Wait(PAUSE_MS)], None)
  {
    assert Mark(st, "alice", 30000).recent == map["alice" := 30000];
  }

  /** Still live at 60 s: the user id is already announced, so nothing reaches
      the handler. */
  lemma AliceStillLive(st: State, d: StreamData)
    requires d.userId == "141981764"
    requires st.recent == map["alice" := 30000] && st.streaming == ["141981764"] && st.halt.None?
    ensures Check(st, "alice", Observation(60000, 60000, Decoded([d])))
         == State(map["alice" := 60000], ["141981764"], st.trace + [Request("alice"), Wait(PAUSE_MS)], None)
  {
    assert Mark(st, "alice", 60000).recent == map["alice" := 60000];
  }

  /** First half: offline at 0 s, live at 30 s (one `on_stream`), still live
      at 60 s (nothing). */
  lemma AliceGoesLive(d: StreamData)
    requires d.userId == "141981764"
    ensures var s3 := Check(Check(Check(Start([], []), "alice", Observation(0, 0, Decoded([]))),
                                  "alice", Observation(30000, 30000, Decoded([d]))),
                            "alice", Observation(60000, 60000, Decoded([d])));
      s3 == State(map["alice" := 60000], ["141981764"],
                  [Request("alice"), Wait(PAUSE_MS)] +
                  [Request("alice"), Dispatch(OnStream("alice", d)), Wait(PAUSE_MS)] +
                  [Request("alice"), Wait(PAUSE_MS)], None)
  {
    var s0 := Start([], []);
    AliceOffline(s0);
    var s1 := Check(s0, "alice", Observation(0, 0, Decoded([])));
    assert s1.trace == [Request("alice"), Wait(PAUSE_MS)];
    AliceLive(s1, d);
    AliceStillLive(Check(s1, "alice", Observation(30000, 30000, Decoded([d]))), d);
  }

  /** A timeout at 61 s, one second after the entry from 60 s: suppressed, so
      no request and nothing changes. */
  lemma AliceSkipped(st: State)
    requires st.recent == map["alice" := 60000] && st.halt.None?
    ensures Check(st, "alice", Observation(61000, 61000, Failed(TIMED_OUT))) == st
  {
  }

  /** A timeout at 90 s: one `on_error` with code 1 and its documented text. */
  lemma AliceTimesOut(st: State)
    requires st.recent == map["alice" := 60000] && st.streaming == ["141981764"] && st.halt.None?
    ensures Check(st, "alice", Observation(90000, 90000, Failed(TIMED_OUT)))
         == State(map["alice" := 90000], ["141981764"],
                  st.trace + [Request("alice"), Dispatch(OnError(Error(1, TIMEOUT))), Wait(PAUSE_MS)], None)
  {
    assert Classify(TIMED_OUT) == Some(Error(1, TIMEOUT));
    assert Mark(st, "alice", 90000).recent == map["alice" := 90000];
  }

  /** An unclassified failure at 120 s: no event, and the user id stays
      announced, because only entries equal to the login are removed. */
  lemma AliceUnclassified(st: State)
    requires st.recent == map["alice" := 90000] && st.streaming == ["141981764"] && st.halt.None?
    ensures Check(st, "alice", Observation(120000, 120000, Failed(NO_FLAGS)))
         == State(map["alice" := 120000], ["141981764"], st.trace + [Request("alice"), Wait(PAUSE_MS)], None)
  {
    assert Classify(NO_FLAGS) == None;
    assert Mark(st, "alice", 120000).recent == map["alice" := 120000];
  }

  /** Second half, from the state at 60 s: a timeout at 61 s is inside the
      window (skipped), a timeout at 90 s gives one `on_error` with code 1, an
      unclassified failure at 120 s leaves the user id announced. */
  lemma AliceFails(st: State)
    requires st.recent == map["alice" := 60000] && st.streaming == ["141981764"] && st.halt.None?
    ensures var s6 := Check(Check(Check(st, "alice", Observation(61000, 61000, Failed(TIMED_OUT))),
                                  "alice", Observation(90000, 90000, Failed(TIMED_OUT))),
                            "alice", Observation(120000, 120000, Failed(NO_FLAGS)));
      s6 == State(map["alice" := 120000], ["141981764"],
                  st.trace + [Request("alice"), Dispatch(OnError(Error(1, TIMEOUT))), Wait(PAUSE_MS)] +
                  [Request("alice"), Wait(PAUSE_MS)], None)
  {
    AliceSkipped(st);
    AliceTimesOut(st);
    AliceUnclassified(Check(st, "alice", Observation(90000, 90000, Failed(TIMED_OUT))));
  }

  /** One streamer, "alice", whose user id is "141981764", checked six times
      in a row (30 s apart, except the fourth, one second after the third):
      offline, live, still live, then a timeout inside the window, a timeout
      after it, and an unclassified failure. Only the live transition and the
      second timeout reach the handler; the skipped check sends no request;
      and the unclassified failure forgets nothing, because it compares the
      login with the stored user ids. */
  lemma AliceScenario(d: StreamData)
    requires d.userId == "141981764"
    ensures var s3 := Check(Check(Check(Start([], []), "alice", Observation(0, 0, Decoded([]))),
                                  "alice", Observation(30000, 30000, Decoded([d]))),
                            "alice", Observation(60000, 60000, Decoded([d])));
      var s6 := Check(Check(Check(s3, "alice", Observation(61000, 61000, Failed(TIMED_OUT))),
                            "alice", Observation(90000, 90000, Failed(TIMED_OUT))),
                      "alice", Observation(120000, 120000, Failed(NO_FLAGS)));
      && s6.streaming == ["141981764"]
      && s6.halt.None?
      && s6.trace == [Request("alice"), Wait(PAUSE_MS)] +
                     [Request("alice"), Dispatch(OnStream("alice", d)), Wait(PAUSE_MS)] +
                     [Request("alice"), Wait(PAUSE_MS)] +
                     [Request("alice"), Dispatch(OnError(Error(1, TIMEOUT))), Wait(PAUSE_MS)] +
                     [Request("alice"), Wait(PAUSE_MS)]
  {
    AliceGoesLive(d);
    AliceFails(Check(Check(Check(Start([], []), "alice", Observation(0, 0, Decoded([]))),
                           "alice", Observation(30000, 30000, Decoded([d]))),
                     "alice", Observation(60000, 60000, Decoded([d]))));
  }
}
