/** What the session state machine guarantees, over single events and over
    whole runs of events handled one after the other. */
module StreamPlayerProperties {
  import opened StreamPlayerSpec

  // ---------------------------------------------------------------------------
  // The session invariant

  lemma InitialIsValid(url: string)
    ensures Valid(Initial(url)) && Idle(Initial(url))
    ensures Initial(url).notifications == [] && Initial(url).scheduled == []
  {
  }

  /** Every event keeps a stream and a parser either both present, created
      together, or both absent, and never leaves the node playing on a stopped
      engine. */
  lemma StepPreservesValid(s: State, e: Event)
    requires Valid(s) && Enabled(s, e)
    ensures Valid(Step(s, e))
  {
  }

  lemma {:induction false} RunPreservesValid(s: State, es: seq<Event>)
    requires Valid(s)
    ensures Run(s, es).Some? ==> Valid(Run(s, es).value)
    decreases |es|
  {
    if es != [] && Enabled(s, es[0]) {
      StepPreservesValid(s, es[0]);
      RunPreservesValid(Step(s, es[0]), es[1..]);
    }
  }

  /** No player ever holds half a session. */
  lemma {:induction false} ReachableSessionsAreWhole(url: string, es: seq<Event>)
    requires Run(Initial(url), es).Some?
    ensures var t := Run(Initial(url), es).value;
      (t.stream.Some? <==> t.parser.Some?) && (t.nodePlaying ==> t.engineRunning)
  {
    InitialIsValid(url);
    RunPreservesValid(Initial(url), es);
  }

  // ---------------------------------------------------------------------------
  // Sessions

  /** `play()` on a live session replaces both of its objects by new ones. */
  lemma PlayReplacesSession(s: State, format: AudioFormat)
    requires Valid(s) && HasSession(s)
    ensures var t := Play(s, format);
      t.parser.value.id != s.parser.value.id && t.stream.value.id != s.stream.value.id &&
      t.parser.value.id != s.stream.value.id && t.stream.value.id != s.parser.value.id
  {
  }

  /** Nothing but `play()` changes which parser a session has, or its format. */
  lemma ParserFixedDuringSession(s: State, e: Event)
    requires Enabled(s, e) && s.parser.Some? && !e.PlayRequested?
    requires Step(s, e).parser.Some?
    ensures Step(s, e).parser.value.id == s.parser.value.id
    ensures Step(s, e).parser.value.format == s.parser.value.format
  {
  }

  /** The events during which a session, once open, stays open. */
  predicate KeepsSession(e: Event)
  {
    e.DelegateSet? || e.TitleReceived? || e.DataReceived? || e.BufferDecoded? ||
    (e.StreamConnected? && e.engineStarts)
  }

  /** The chunks of the data events, in order. */
  function DataChunks(es: seq<Event>): seq<Chunk>
    decreases |es|
  {
    if es == [] then []
    else (if es[0].DataReceived? then [es[0].data] else []) + DataChunks(es[1..])
  }

  lemma {:induction false} SessionKeepsItsObjects(s: State, es: seq<Event>)
    requires HasSession(s)
    requires forall e :: e in es ==> KeepsSession(e)
    ensures Run(s, es).Some?
    ensures Run(s, es).value.stream == s.stream
    ensures Run(s, es).value.parser ==
      Some(s.parser.value.(input := s.parser.value.input + DataChunks(es)))
    decreases |es|
  {
    if es == [] {
      assert s.parser.value.input + [] == s.parser.value.input;
    } else {
      assert es[0] in es;
      var t := Step(s, es[0]);
      SessionKeepsItsObjects(t, es[1..]);
      assert KeepsSession(es[0]);
      var head := if es[0].DataReceived? then [es[0].data] else [];
      assert t.parser.value.input == s.parser.value.input + head;
      assert DataChunks(es) == head + DataChunks(es[1..]);
      assert s.parser.value.input + head + DataChunks(es[1..])
          == s.parser.value.input + (head + DataChunks(es[1..]));
    }
  }

  /** After `play()`, while the session lasts, its parser is the new one, bound
      to the format of that moment, and it has been handed exactly the bytes the
      stream delivered since, chunk by chunk and in order: nothing is left over
      from an earlier session, and the data events never trap. */
  lemma {:induction false} PlayedParserSeesExactlyItsData(s: State, format: AudioFormat, es: seq<Event>)
    requires forall e :: e in es ==> KeepsSession(e)
    ensures Run(s, [PlayRequested(format)] + es).Some?
    ensures Run(s, [PlayRequested(format)] + es).value.parser ==
      Some(Parser(s.nextId, format, DataChunks(es)))
    ensures Run(s, [PlayRequested(format)] + es).value.stream ==
      Some(Stream(s.nextId + 1, s.url, AAC_MIME_TYPE))
  {
    var played := [PlayRequested(format)] + es;
    assert played[1..] == es;
    assert Run(s, played) == Run(Play(s, format), es);
    SessionKeepsItsObjects(Play(s, format), es);
    assert [] + DataChunks(es) == DataChunks(es);
  }

  // ---------------------------------------------------------------------------
  // Teardown

  /** A parser error has exactly the effect of `pause()`. */
  lemma ParserErrorActsAsPause(s: State)
    ensures Step(s, ParserFailed) == Pause(s)
  {
  }

  /** The stream going away clears the session before it stops playback,
      the reverse of `pause()`, and the two end in the same state. */
  lemma StreamDisconnectEndsAsPause(s: State)
    ensures ShoutcastStreamDidDisconnect(s) == Pause(s)
  {
  }

  /** `pause()` has no idle guard: on a player with no session it still stops
      the engine and tells the delegate that playback stopped, every time. */
  lemma PauseHasNoIdleGuard(s: State)
    requires Idle(s) && s.hasDelegate
    ensures Pause(s).notifications == s.notifications + [DidStopPlayback]
    ensures Pause(Pause(s)).notifications == s.notifications + [DidStopPlayback, DidStopPlayback]
    ensures Pause(Pause(s)).(notifications := s.notifications) == Pause(s).(notifications := s.notifications)
  {
  }

  /** If the engine will not start, the connection is dropped and the only
      trace is the absence of a start notification. */
  lemma EngineFailureTearsDownSilently(s: State)
    requires HasSession(s)
    ensures var t := ShoutcastStreamDidConnect(s, false);
      Idle(t) && t.notifications == s.notifications && t.nodePlaying == s.nodePlaying
  {
  }

  // ---------------------------------------------------------------------------
  // Notifications

  /** The delegate calls each event causes, as an independent account. */
  function Emitted(s: State, e: Event): seq<Notification>
  {
    match e
    case PauseRequested => Delivered(s, DidStopPlayback)
    case StreamDisconnected => Delivered(s, DidStopPlayback)
    case ParserFailed => Delivered(s, DidStopPlayback)
    case StreamConnected(engineStarts) => if engineStarts then Delivered(s, DidStartPlayback) else []
    case TitleReceived(title) => Delivered(s, DidChangeSong(title))
    case _ => []
  }

  lemma StepEmits(s: State, e: Event)
    requires Enabled(s, e)
    ensures Step(s, e).notifications == s.notifications + Emitted(s, e)
  {
  }

  /** The titles among a list of delegate calls, in order. */
  function Titles(ns: seq<Notification>): seq<string>
    decreases |ns|
  {
    if ns == [] then []
    else (if ns[0].DidChangeSong? then [ns[0].title] else []) + Titles(ns[1..])
  }

  lemma {:induction false} TitlesAppend(a: seq<Notification>, b: seq<Notification>)
    ensures Titles(a + b) == Titles(a) + Titles(b)
    decreases |a|
  {
    if a == [] {
      assert a + b == b;
    } else {
      assert (a + b)[1..] == a[1..] + b;
      TitlesAppend(a[1..], b);
    }
  }

  /** The titles the stream reported, in order. */
  function ReceivedTitles(es: seq<Event>): seq<string>
    decreases |es|
  {
    if es == [] then []
    else (if es[0].TitleReceived? then [es[0].title] else []) + ReceivedTitles(es[1..])
  }

  lemma StepTitles(s: State, e: Event)
    requires Enabled(s, e) && s.hasDelegate && !e.DelegateSet?
    ensures Step(s, e).hasDelegate
    ensures Titles(Step(s, e).notifications) ==
      Titles(s.notifications) + (if e.TitleReceived? then [e.title] else [])
  {
    StepEmits(s, e);
    TitlesAppend(s.notifications, Emitted(s, e));
    if e.TitleReceived? {
      assert Emitted(s, e)[1..] == [];
    }
  }

  /** While a delegate is attached, it sees every title the stream reports,
      unchanged, once each and in the order the stream reported them. */
  lemma {:induction false} TitlesReachDelegateInOrder(s: State, es: seq<Event>)
    requires s.hasDelegate
    requires forall e :: e in es ==> !e.DelegateSet?
    requires Run(s, es).Some?
    ensures Titles(Run(s, es).value.notifications) == Titles(s.notifications) + ReceivedTitles(es)
    decreases |es|
  {
    if es != [] {
      var e := es[0];
      assert e in es;
      StepTitles(s, e);
      TitlesReachDelegateInOrder(Step(s, e), es[1..]);
      var own := if e.TitleReceived? then [e.title] else [];
      assert ReceivedTitles(es) == own + ReceivedTitles(es[1..]);
      assert Titles(s.notifications) + own + ReceivedTitles(es[1..])
          == Titles(s.notifications) + (own + ReceivedTitles(es[1..]));
    }
  }

  // ---------------------------------------------------------------------------
  // Scheduling

  /** The events that stop the player node. */
  predicate StopsPlayback(e: Event)
  {
    e.PauseRequested? || e.StreamDisconnected? || e.ParserFailed?
  }

  /** The decoded buffers, in the order the parser emitted them. */
  function DecodedBuffers(es: seq<Event>): seq<PcmBuffer>
    decreases |es|
  {
    if es == [] then []
    else (if es[0].BufferDecoded? then [es[0].buffer] else []) + DecodedBuffers(es[1..])
  }

  lemma StepSchedules(s: State, e: Event)
    requires Enabled(s, e) && !StopsPlayback(e)
    ensures Step(s, e).scheduled == s.scheduled + (if e.BufferDecoded? then [e.buffer] else [])
  {
    if !e.BufferDecoded? {
      assert s.scheduled + [] == s.scheduled;
    }
  }

  /** Until the node is stopped, its schedule is what it held before followed
      by every decoded buffer in emission order: none lost, duplicated or
      reordered. */
  lemma {:induction false} ScheduleKeepsEmissionOrder(s: State, es: seq<Event>)
    requires forall e :: e in es ==> !StopsPlayback(e)
    requires Run(s, es).Some?
    ensures Run(s, es).value.scheduled == s.scheduled + DecodedBuffers(es)
    decreases |es|
  {
    if es == [] {
      assert s.scheduled + [] == s.scheduled;
    } else {
      var e := es[0];
      assert e in es;
      var own := if e.BufferDecoded? then [e.buffer] else [];
      StepSchedules(s, e);
      ScheduleKeepsEmissionOrder(Step(s, e), es[1..]);
      assert DecodedBuffers(es) == own + DecodedBuffers(es[1..]);
      assert s.scheduled + own + DecodedBuffers(es[1..]) == s.scheduled + (own + DecodedBuffers(es[1..]));
    }
  }

  /** A run of decoded buffers changes nothing but the schedule. */
  lemma {:induction false} DecodedBuffersOnlyExtendSchedule(s: State, es: seq<Event>)
    requires forall e :: e in es ==> e.BufferDecoded?
    ensures Run(s, es) == Some(s.(scheduled := s.scheduled + DecodedBuffers(es)))
    decreases |es|
  {
    if es == [] {
      assert s.scheduled + [] == s.scheduled;
    } else {
      assert es[0] in es;
      var t := Step(s, es[0]);
      DecodedBuffersOnlyExtendSchedule(t, es[1..]);
      assert t == s.(scheduled := s.scheduled + [es[0].buffer]);
      assert DecodedBuffers(es) == [es[0].buffer] + DecodedBuffers(es[1..]);
      assert s.scheduled + [es[0].buffer] + DecodedBuffers(es[1..])
          == s.scheduled + ([es[0].buffer] + DecodedBuffers(es[1..]));
    }
  }

  /** A decoded buffer is scheduled whatever the session or engine state. */
  lemma BufferScheduledUnguarded(s: State, buffer: PcmBuffer)
    ensures Step(s, BufferDecoded(buffer)).scheduled == s.scheduled + [buffer]
    ensures Step(s, BufferDecoded(buffer)).notifications == s.notifications
    ensures Step(s, BufferDecoded(buffer)).stream == s.stream
    ensures Step(s, BufferDecoded(buffer)).parser == s.parser
    ensures Step(s, BufferDecoded(buffer)).engineRunning == s.engineRunning
  {
  }

  // ---------------------------------------------------------------------------
  // A whole session

  /** Running one sequence of events after another is running them together. */
  lemma {:induction false} RunConcat(s: State, xs: seq<Event>, ys: seq<Event>)
    requires Run(s, xs).Some?
    ensures Run(s, xs + ys) == Run(Run(s, xs).value, ys)
    decreases |xs|
  {
    if xs != [] {
      assert (xs + ys)[0] == xs[0];
      assert (xs + ys)[1..] == xs[1..] + ys;
      RunConcat(Step(s, xs[0]), xs[1..], ys);
    } else {
      assert xs + ys == ys;
    }
  }

  /** The first half of the scenario below: attach a delegate, play, connect,
      receive a chunk. */
  lemma ConnectAndDeliver(url: string, format: AudioFormat, chunk: Chunk)
    ensures Run(Initial(url), [DelegateSet(true), PlayRequested(format), StreamConnected(true), DataReceived(chunk)])
      == Some(State(url, Some(Stream(1, url, AAC_MIME_TYPE)), Some(Parser(0, format, [chunk])),
                    true, true, [], true, [DidStartPlayback], 2))
  {
    var es := [DelegateSet(true), PlayRequested(format), StreamConnected(true), DataReceived(chunk)];
    var s1 := SetDelegate(Initial(url), true);
    var s2 := Play(s1, format);
    var s3 := ShoutcastStreamDidConnect(s2, true);
    assert Run(Initial(url), es) == Run(s1, es[1..]);
    assert es[1..][1..] == es[2..];
    assert Run(s1, es[1..]) == Run(s2, es[2..]);
    assert es[2..][1..] == es[3..];
    assert Run(s2, es[2..]) == Run(s3, es[3..]);
    var s4 := ShoutcastStreamGotData(s3, chunk);
    assert s3.notifications == [] + [DidStartPlayback] == [DidStartPlayback];
    assert s4.parser.value.input == [] + [chunk] == [chunk];
    assert es[3..][1..] == [];
    assert Run(s3, es[3..]) == Run(s4, []);
    assert s4 == State(url, Some(Stream(1, url, AAC_MIME_TYPE)), Some(Parser(0, format, [chunk])),
                       true, true, [], true, [DidStartPlayback], 2);
  }

  /** The stream connects and delivers one chunk holding three frames, which
      decode: the chunk reaches the session's parser without trapping, one
      start notification goes out, then the three buffers are scheduled in
      order, and no stop. */
  lemma {:induction false} ConnectThenThreeBuffers(url: string, format: AudioFormat, chunk: Chunk,
                                                   b1: PcmBuffer, b2: PcmBuffer, b3: PcmBuffer)
    ensures var es := [DelegateSet(true), PlayRequested(format), StreamConnected(true), DataReceived(chunk),
                       BufferDecoded(b1), BufferDecoded(b2), BufferDecoded(b3)];
      Run(Initial(url), es).Some? &&
      Run(Initial(url), es).value.notifications == [DidStartPlayback] &&
      Run(Initial(url), es).value.scheduled == [b1, b2, b3] &&
      Run(Initial(url), es).value.parser.Some? &&
      Run(Initial(url), es).value.parser.value.input == [chunk] &&
      Run(Initial(url), es).value.engineRunning && Run(Initial(url), es).value.nodePlaying
  {
    var es := [DelegateSet(true), PlayRequested(format), StreamConnected(true), DataReceived(chunk),
               BufferDecoded(b1), BufferDecoded(b2), BufferDecoded(b3)];
    var s0 := Initial(url);
    var s4 := State(url, Some(Stream(1, url, AAC_MIME_TYPE)), Some(Parser(0, format, [chunk])),
                    true, true, [], true, [DidStartPlayback], 2);
    ConnectAndDeliver(url, format, chunk);
    assert es[..4] == [DelegateSet(true), PlayRequested(format), StreamConnected(true), DataReceived(chunk)];
    assert es == es[..4] + es[4..];
    RunConcat(s0, es[..4], es[4..]);
    var buffers := es[4..];
    DecodedBuffersOnlyExtendSchedule(s4, buffers);
    assert DecodedBuffers(buffers) == [b1, b2, b3] by {
      assert buffers[1..][1..][1..] == [];
      assert DecodedBuffers(buffers[1..][1..]) == [b3];
      assert DecodedBuffers(buffers[1..]) == [b2, b3];
    }
  }
}
