/** The playback-session state machine of AACShoutcastStreamPlayer, on values.

    The player owns an optional stream (the HTTP transport) and an optional
    ADTS parser, drives an audio engine and a player node, schedules decoded
    PCM buffers on the node and reports start, stop and title changes to its
    delegate. The foreign objects are abstract: the stream and the parser are
    tokens with fresh ids, the engine and the node are two flags, the node's
    schedule is a FIFO sequence, and the delegate is a log of the calls made
    to it. Each function below is one method or callback of the player. */
module StreamPlayerSpec {

  datatype Option<T> = None | Some(value: T)

  type Byte = bv8

  /** The bytes of one `Data` value delivered by the stream. */
  type Chunk = seq<Byte>

  /** The MIME type the player asks the stream for. */
  const AAC_MIME_TYPE: string := "audio/aac"

  /** The PCM format of the player node's output bus, as the parser is told it. */
  datatype AudioFormat = AudioFormat(sampleRate: nat, channelCount: nat)

  /** A ShoutcastStream instance: which one it is, and what it was asked to fetch. */
  datatype Stream = Stream(id: nat, url: string, mimeType: string)

  /** An ADTSParser instance: which one it is, the format it was bound to at
      creation, and every chunk of bytes handed to it so far, in order. */
  datatype Parser = Parser(id: nat, format: AudioFormat, input: seq<Chunk>)

  /** A decoded PCM buffer, opaque. */
  datatype PcmBuffer = PcmBuffer(id: nat)

  /** The calls the player makes on its delegate. */
  datatype Notification = DidStartPlayback | DidStopPlayback | DidChangeSong(title: string)

  /** What `engine.start()` throws. */
  datatype EngineError = EngineStartFailed

  datatype Result<T> = Ok(value: T) | Err(error: EngineError)

  /** Everything the session logic reads or writes. */
  datatype State = State(
    url: string,
    stream: Option<Stream>,
    parser: Option<Parser>,
    engineRunning: bool,
    nodePlaying: bool,
    scheduled: seq<PcmBuffer>,
    hasDelegate: bool,
    notifications: seq<Notification>,
    nextId: nat)

  /** A freshly initialised player: engine prepared but stopped, no session,
      no delegate yet (the `delegate` property starts out nil). */
  function Initial(url: string): (s: State)
    ensures s.url == url && Idle(s) && !s.engineRunning && !s.nodePlaying
    ensures s.scheduled == [] && !s.hasDelegate && s.notifications == []
  {
    State(url, None, None, false, false, [], false, [], 0)
  }

  predicate HasSession(s: State)
  {
    s.stream.Some? && s.parser.Some?
  }

  predicate Idle(s: State)
  {
    s.stream.None? && s.parser.None?
  }

  /** The states the player can be in: a stream exists exactly when a parser
      does, and the two were created together (the parser first); the node
      plays only on a running engine; the stream fetches the player's URL as AAC. */
  predicate Valid(s: State)
  {
    (s.stream.Some? <==> s.parser.Some?) &&
    (s.nodePlaying ==> s.engineRunning) &&
    (HasSession(s) ==>
      s.stream.value.id == s.parser.value.id + 1 &&
      s.stream.value.id < s.nextId &&
      s.stream.value.url == s.url &&
      s.stream.value.mimeType == AAC_MIME_TYPE)
  }

  /** What a call `delegate?.m(...)` delivers: nothing when no delegate is set. */
  function Delivered(s: State, n: Notification): seq<Notification>
  {
    if s.hasDelegate then [n] else []
  }

  function Notify(s: State, n: Notification): State
  {
    s.(notifications := s.notifications + Delivered(s, n))
  }

  /** Assigning the player's `delegate` property. */
  function SetDelegate(s: State, attached: bool): (t: State)
    ensures t.hasDelegate == attached
    ensures t.(hasDelegate := s.hasDelegate) == s
  {
    s.(hasDelegate := attached)
  }

  /** `connect()`: a new parser bound to the node's current output format,
      then a new stream for the player's URL as "audio/aac". Any previous
      session is overwritten. */
  function Connect(s: State, outputFormat: AudioFormat): (t: State)
    ensures HasSession(t)
    ensures t.parser.value == Parser(s.nextId, outputFormat, [])
    ensures t.stream.value == Stream(s.nextId + 1, s.url, AAC_MIME_TYPE)
    ensures s.nextId <= t.parser.value.id < t.stream.value.id < t.nextId
    ensures t.(stream := s.stream, parser := s.parser, nextId := s.nextId) == s
  {
    var parser := Parser(s.nextId, outputFormat, []);
    var stream := Stream(s.nextId + 1, s.url, AAC_MIME_TYPE);
    s.(parser := Some(parser), stream := Some(stream), nextId := s.nextId + 2)
  }

  /** `disconnect()`: drops the stream and the parser together. */
  function Disconnect(s: State): (t: State)
    ensures Idle(t)
    ensures t.(stream := s.stream, parser := s.parser) == s
  {
    s.(stream := None, parser := None)
  }

  /** `startPlayback()`: start the engine, which may throw; only if it does not,
      play the node and tell the delegate that playback started. */
  function StartPlayback(s: State, engineStarts: bool): (r: Result<State>)
    ensures r.Ok? <==> engineStarts
    ensures r.Ok? ==> r.value.engineRunning && r.value.nodePlaying
    ensures r.Ok? ==> r.value.notifications == s.notifications + Delivered(s, DidStartPlayback)
    ensures r.Ok? ==> r.value.(engineRunning := s.engineRunning, nodePlaying := s.nodePlaying,
                               notifications := s.notifications) == s
  {
    if !engineStarts then Err(EngineStartFailed)
    else Ok(Notify(s.(engineRunning := true, nodePlaying := true), DidStartPlayback))
  }

  /** `stopPlayback()`: stop the node (which also drops every buffer scheduled
      on it), stop the engine, tell the delegate that playback stopped. */
  function StopPlayback(s: State): (t: State)
    ensures !t.engineRunning && !t.nodePlaying && t.scheduled == []
    ensures t.notifications == s.notifications + Delivered(s, DidStopPlayback)
    ensures t.(engineRunning := s.engineRunning, nodePlaying := s.nodePlaying,
               scheduled := s.scheduled, notifications := s.notifications) == s
  {
    Notify(s.(nodePlaying := false, scheduled := [], engineRunning := false), DidStopPlayback)
  }

  /** `play()`: opens a new session, replacing any existing one; the engine,
      the node, the schedule and the delegate are left as they are. */
  function Play(s: State, outputFormat: AudioFormat): (t: State)
    ensures HasSession(t)
    ensures t.parser.value.format == outputFormat && t.parser.value.input == []
    ensures t.parser.value.id >= s.nextId && t.stream.value.id >= s.nextId
    ensures t.engineRunning == s.engineRunning && t.nodePlaying == s.nodePlaying
    ensures t.scheduled == s.scheduled && t.notifications == s.notifications
  {
    Connect(s, outputFormat)
  }

  /** `pause()`: stop playback, then disconnect. There is no guard for the idle
      case: a stop notification goes out whether or not a session existed. */
  function Pause(s: State): (t: State)
    ensures Idle(t) && !t.engineRunning && !t.nodePlaying && t.scheduled == []
    ensures t.notifications == s.notifications + Delivered(s, DidStopPlayback)
    ensures t.url == s.url && t.hasDelegate == s.hasDelegate && t.nextId == s.nextId
  {
    Disconnect(StopPlayback(s))
  }

  /** `shoutcastStreamDidConnect`: start playback; if the engine throws, drop
      the session (the warning it logs is not modelled). */
  function ShoutcastStreamDidConnect(s: State, engineStarts: bool): (t: State)
    ensures engineStarts ==>
      t.engineRunning && t.nodePlaying &&
      t.notifications == s.notifications + Delivered(s, DidStartPlayback) &&
      t.stream == s.stream && t.parser == s.parser
    ensures !engineStarts ==>
      Idle(t) && t.notifications == s.notifications &&
      t.engineRunning == s.engineRunning && t.nodePlaying == s.nodePlaying
    ensures t.scheduled == s.scheduled && t.hasDelegate == s.hasDelegate && t.nextId == s.nextId
  {
    match StartPlayback(s, engineStarts)
    case Ok(started) => started
    case Err(_) => Disconnect(s)
  }

  /** `shoutcastStreamDidDisconnect`: disconnect first, then stop playback. */
  function ShoutcastStreamDidDisconnect(s: State): (t: State)
    ensures Idle(t) && !t.engineRunning && !t.nodePlaying && t.scheduled == []
    ensures t.notifications == s.notifications + Delivered(s, DidStopPlayback)
  {
    StopPlayback(Disconnect(s))
  }

  /** `shoutcastStream(_:gotNewTitle:)`: pass the title on, unchanged. */
  function ShoutcastStreamGotNewTitle(s: State, title: string): (t: State)
    ensures t.notifications == s.notifications + Delivered(s, DidChangeSong(title))
    ensures t.(notifications := s.notifications) == s
  {
    Notify(s, DidChangeSong(title))
  }

  /** `ADTSParser.parse`: as far as the player is concerned, the bytes are
      handed to the parser; what it makes of them is not modelled. */
  function Parse(p: Parser, data: Chunk): (q: Parser)
    ensures q.input == p.input + [data]
    ensures q.id == p.id && q.format == p.format
  {
    p.(input := p.input + [data])
  }

  /** `shoutcastStream(_:gotData:)`: `adtsParser!.parse(data)`; the parser
      must exist (the force-unwrap traps otherwise). */
  function ShoutcastStreamGotData(s: State, data: Chunk): (t: State)
    requires s.parser.Some?
    ensures t.parser.Some? && t.parser.value.input == s.parser.value.input + [data]
    ensures t.parser.value.id == s.parser.value.id && t.parser.value.format == s.parser.value.format
    ensures t.(parser := s.parser) == s
  {
    s.(parser := Some(Parse(s.parser.value, data)))
  }

  /** `adtsParserDidEncounterError`: calls `pause()`. */
  function AdtsParserDidEncounterError(s: State): (t: State)
    ensures Idle(t) && !t.engineRunning && !t.nodePlaying && t.scheduled == []
    ensures t.notifications == s.notifications + Delivered(s, DidStopPlayback)
    ensures t.url == s.url && t.hasDelegate == s.hasDelegate && t.nextId == s.nextId
  {
    Pause(s)
  }

  /** `adtsParser(_:didParsePCMBuffer:)`: schedule the buffer on the node. */
  function AdtsParserDidParsePcmBuffer(s: State, buffer: PcmBuffer): (t: State)
    ensures t.scheduled == s.scheduled + [buffer]
    ensures t.(scheduled := s.scheduled) == s
  {
    s.(scheduled := s.scheduled + [buffer])
  }

  /** The calls that reach the player, from its client, the stream and the parser. */
  datatype Event =
    | DelegateSet(attached: bool)
    | PlayRequested(outputFormat: AudioFormat)
    | PauseRequested
    | StreamConnected(engineStarts: bool)
    | StreamDisconnected
    | TitleReceived(title: string)
    | DataReceived(data: Chunk)
    | ParserFailed
    | BufferDecoded(buffer: PcmBuffer)

  /** Whether handling the event does not trap. */
  predicate Enabled(s: State, e: Event)
  {
    e.DataReceived? ==> s.parser.Some?
  }

  function Step(s: State, e: Event): (t: State)
    requires Enabled(s, e)
    ensures t.url == s.url
  {
    match e
    case DelegateSet(attached) => SetDelegate(s, attached)
    case PlayRequested(format) => Play(s, format)
    case PauseRequested => Pause(s)
    case StreamConnected(engineStarts) => ShoutcastStreamDidConnect(s, engineStarts)
    case StreamDisconnected => ShoutcastStreamDidDisconnect(s)
    case TitleReceived(title) => ShoutcastStreamGotNewTitle(s, title)
    case DataReceived(data) => ShoutcastStreamGotData(s, data)
    case ParserFailed => AdtsParserDidEncounterError(s)
    case BufferDecoded(buffer) => AdtsParserDidParsePcmBuffer(s, buffer)
  }

  /** Handling the events one after the other, as the single serial queue does;
      None when one of them traps. */
  function Run(s: State, es: seq<Event>): (r: Option<State>)
    ensures r.Some? ==> r.value.url == s.url
    decreases |es|
  {
    if es == [] then Some(s)
    else if !Enabled(s, es[0]) then None
    else Run(Step(s, es[0]), es[1..])
  }
}
