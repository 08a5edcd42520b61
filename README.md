# Soundtrack: the AAC SHOUTcast stream player's session state machine

Soundtrack is a macOS app that plays a SHOUTcast internet radio stream carrying
AAC audio in ADTS frames. Its core is `AACShoutcastStreamPlayer`. The player
owns a playback session made of two objects: a `ShoutcastStream` (the HTTP
transport) and an `ADTSParser` (frame splitting and decoding). It starts and
stops an `AVAudioEngine` and an `AVAudioPlayerNode`, and schedules each decoded
PCM buffer on the node. It tells its delegate when playback starts, when it
stops and when the song title changes. This project models that state machine
and proves what each event does to it.

Three modules:

- `StreamPlayerSpec` (`stream_player_spec.dfy`) holds the player's state as a
  value: the two optional session objects, the engine and node flags, the node's
  FIFO schedule, whether a delegate is attached, the log of delegate calls and
  a counter that hands out fresh ids. It has one pure transition function per
  method and callback of the player, and `Run`, which handles a sequence of
  events one after the other, as the player's single serial queue does.
- `StreamPlayer` (`stream_player.dfy`) is the class `AACShoutcastStreamPlayer`
  with the source's own fields. It has one method per source method. Each method
  reassigns those fields and ensures that the new `Model()` is the transition
  of the same name applied to the old one. Methods call each other as in the
  source: `Pause` calls `StopPlayback` and then `Disconnect`.
- `StreamPlayerProperties` (`stream_player_properties.dfy`) holds the lemmas:
  the session invariant over every run, titles delivered in order, and FIFO
  scheduling. It also shows that a new session's parser gets exactly the bytes
  delivered after `play()`, and how parser errors, stream disconnects and
  engine failures compare with `pause()`.

How the foreign objects are modelled:

- Stream and parser are tokens with fresh ids. The parser is created first, so it
  gets id `n` and the stream gets `n + 1`.
- The parser also records the format it was bound to and every chunk of bytes it
  has been given. How it splits or decodes those bytes is not modelled.
- A PCM buffer is an opaque token.
- Whether `engine.start()` throws is a parameter of the stream-connected
  handler.
- The output format of the player node (`playerNode.outputFormat(forBus: 0)`)
  is a parameter of `play()`. This value is recorded at connect time.
- The weak `delegate?` is a flag. A delegate call is logged only while the flag
  is set.
- Stopping the player node also drops the buffers scheduled on it, as Apple's
  documentation says `AVAudioPlayerNode.stop()` does.
- In `shoutcastStream(_:gotData:)`, the force-unwrap `adtsParser!` becomes a
  precondition of the method. In `Run`, it becomes a trap: `Run` returns `None`.

Behaviour of the code that one might expect to be otherwise:

- `pause()` has no idle guard. On a player with no session it still stops the
  node and the engine, and it still sends the delegate a stop notification.
  It is not a no-op on an idle player (`PauseHasNoIdleGuard`).
- A decoded buffer is scheduled whatever the session or engine state is. The
  player has no guard for "not before the engine has started"
  (`BufferScheduledUnguarded`).
- The player calls its delegate directly from the callback that caused the
  call. It does not dispatch the call to a separate queue.
- The stream-disconnected handler clears the session before it stops playback.
  This is the reverse of `pause()`. Both end in the same state
  (`StreamDisconnectEndsAsPause`).

## Model

| member | source | states |
|---|---|---|
| StreamPlayerSpec.Initial | Soundtrack/AACShoutcastStreamPlayer.swift:35-43 | a new player has the given URL, no session, a stopped engine and node, an empty schedule, no delegate and no notifications |
| StreamPlayerSpec.SetDelegate | Soundtrack/AACShoutcastStreamPlayer.swift:21 | setting the delegate changes only whether one is attached |
| StreamPlayerSpec.Connect | Soundtrack/AACShoutcastStreamPlayer.swift:54-59 | both session objects are new. The parser is created first, is bound to the given output format and has no input. The stream fetches the player's URL as "audio/aac". Nothing else changes |
| StreamPlayerSpec.Disconnect | Soundtrack/AACShoutcastStreamPlayer.swift:61-64 | stream and parser are both cleared; nothing else changes |
| StreamPlayerSpec.StartPlayback | Soundtrack/AACShoutcastStreamPlayer.swift:66-70 | the call succeeds exactly when the engine starts. Then engine and node run and one start notification goes to the delegate. Nothing else changes |
| StreamPlayerSpec.StopPlayback | Soundtrack/AACShoutcastStreamPlayer.swift:72-76 | node and engine stop, the node's schedule is emptied, and one stop notification goes to the delegate. Nothing else changes |
| StreamPlayerSpec.Play | Soundtrack/AACShoutcastStreamPlayer.swift:45-47 | afterwards a session exists. Its parser is fresh, empty and bound to the current output format. Engine, node, schedule and notifications are unchanged |
| StreamPlayerSpec.Pause | Soundtrack/AACShoutcastStreamPlayer.swift:49-52 | from any state: no session, engine and node stopped, empty schedule, and exactly one stop notification appended |
| StreamPlayerSpec.ShoutcastStreamDidConnect | Soundtrack/AACShoutcastStreamPlayer.swift:78-85 | if the engine starts, the node plays, one start notification goes out and the session is kept. If the engine throws, the session is cleared, no notification goes out and the engine and node flags are unchanged |
| StreamPlayerSpec.ShoutcastStreamDidDisconnect | Soundtrack/AACShoutcastStreamPlayer.swift:87-90 | no session, engine and node stopped, empty schedule, one stop notification |
| StreamPlayerSpec.ShoutcastStreamGotNewTitle | Soundtrack/AACShoutcastStreamPlayer.swift:92-94 | the title reaches the delegate unchanged; nothing else changes |
| StreamPlayerSpec.Parse | Soundtrack/AACShoutcastStreamPlayer.swift:97 | the chunk is added to the parser's input unchanged; the parser keeps its identity and format |
| StreamPlayerSpec.ShoutcastStreamGotData | Soundtrack/AACShoutcastStreamPlayer.swift:96-98 | needs a parser. The bytes are handed to that same parser unchanged. Nothing else changes |
| StreamPlayerSpec.AdtsParserDidEncounterError | Soundtrack/AACShoutcastStreamPlayer.swift:100-102 | the effect of `pause()`: no session, engine and node stopped, empty schedule, exactly one stop notification appended; URL, delegate and id counter kept |
| StreamPlayerSpec.AdtsParserDidParsePcmBuffer | Soundtrack/AACShoutcastStreamPlayer.swift:104-106 | the buffer goes to the end of the node's schedule; nothing else changes |
| StreamPlayer.AACShoutcastStreamPlayer.constructor | Soundtrack/AACShoutcastStreamPlayer.swift:35-43 | a new player has no session, a stopped engine, an empty schedule, no delegate and no notifications |
| StreamPlayer.AACShoutcastStreamPlayer.SetDelegate | Soundtrack/AACShoutcastStreamPlayer.swift:21 | the new state is `SetDelegate` of the old one |
| StreamPlayer.AACShoutcastStreamPlayer.Play | Soundtrack/AACShoutcastStreamPlayer.swift:45-47 | afterwards a session exists, its parser is bound to the given format, and the new state is `Play` of the old one |
| StreamPlayer.AACShoutcastStreamPlayer.Pause | Soundtrack/AACShoutcastStreamPlayer.swift:49-52 | afterwards there is no session and engine and node are stopped; the new state is `Pause` of the old one |
| StreamPlayer.AACShoutcastStreamPlayer.Connect | Soundtrack/AACShoutcastStreamPlayer.swift:54-59 | the new state is `Connect` of the old one, and the session invariant holds |
| StreamPlayer.AACShoutcastStreamPlayer.Disconnect | Soundtrack/AACShoutcastStreamPlayer.swift:61-64 | the new state is `Disconnect` of the old one |
| StreamPlayer.AACShoutcastStreamPlayer.StartPlayback | Soundtrack/AACShoutcastStreamPlayer.swift:66-70 | returns `Ok` exactly when the engine starts; a throw leaves the player untouched |
| StreamPlayer.AACShoutcastStreamPlayer.StopPlayback | Soundtrack/AACShoutcastStreamPlayer.swift:72-76 | the new state is `StopPlayback` of the old one |
| StreamPlayer.AACShoutcastStreamPlayer.ShoutcastStreamDidConnect | Soundtrack/AACShoutcastStreamPlayer.swift:78-85 | the new state is `ShoutcastStreamDidConnect` of the old one; the catch path disconnects |
| StreamPlayer.AACShoutcastStreamPlayer.ShoutcastStreamDidDisconnect | Soundtrack/AACShoutcastStreamPlayer.swift:87-90 | disconnects, then stops playback |
| StreamPlayer.AACShoutcastStreamPlayer.ShoutcastStreamGotNewTitle | Soundtrack/AACShoutcastStreamPlayer.swift:92-94 | the title is forwarded to the delegate |
| StreamPlayer.AACShoutcastStreamPlayer.ShoutcastStreamGotData | Soundtrack/AACShoutcastStreamPlayer.swift:96-98 | the force-unwrap demands a parser; the bytes are handed to it |
| StreamPlayer.AACShoutcastStreamPlayer.AdtsParserDidEncounterError | Soundtrack/AACShoutcastStreamPlayer.swift:100-102 | calls `Pause` |
| StreamPlayer.AACShoutcastStreamPlayer.AdtsParserDidParsePcmBuffer | Soundtrack/AACShoutcastStreamPlayer.swift:104-106 | the buffer is scheduled on the node |
| StreamPlayerProperties.InitialIsValid | Soundtrack/AACShoutcastStreamPlayer.swift:35-43 | a new player satisfies the session invariant and is idle |
| StreamPlayerProperties.StepPreservesValid | Soundtrack/AACShoutcastStreamPlayer.swift:45-106 | every method and callback keeps the session invariant. The stream and parser are both present and created together, or both absent. The node never plays on a stopped engine |
| StreamPlayerProperties.RunPreservesValid | Soundtrack/AACShoutcastStreamPlayer.swift:45-106 | the session invariant holds after any sequence of events |
| StreamPlayerProperties.ReachableSessionsAreWhole | Soundtrack/AACShoutcastStreamPlayer.swift:61-64 | no reachable state holds a stream without a parser or a parser without a stream |
| StreamPlayerProperties.PlayReplacesSession | Soundtrack/AACShoutcastStreamPlayer.swift:54-59 | `play()` on a live session replaces both objects with new ones |
| StreamPlayerProperties.ParserFixedDuringSession | Soundtrack/AACShoutcastStreamPlayer.swift:55 | no event except `play()` changes the session's parser or its output format |
| StreamPlayerProperties.SessionKeepsItsObjects | Soundtrack/AACShoutcastStreamPlayer.swift:96-98 | while only title, data, buffer and successful-connect events arrive, the session keeps its objects and no data event traps. The parser gets every data chunk, in order |
| StreamPlayerProperties.PlayedParserSeesExactlyItsData | Soundtrack/AACShoutcastStreamPlayer.swift:54-59 | after `play()`, the session's parser is the new one, bound to that moment's format. It gets exactly the bytes delivered since then, with nothing left over from an earlier session |
| StreamPlayerProperties.ParserErrorActsAsPause | Soundtrack/AACShoutcastStreamPlayer.swift:100-102 | a parser error has exactly the effect of `pause()` |
| StreamPlayerProperties.StreamDisconnectEndsAsPause | Soundtrack/AACShoutcastStreamPlayer.swift:87-90 | the stream-disconnect handler ends in the same state as `pause()` |
| StreamPlayerProperties.PauseHasNoIdleGuard | Soundtrack/AACShoutcastStreamPlayer.swift:49-52 | on an idle player, each `pause()` still sends one stop notification. Pausing twice changes nothing else |
| StreamPlayerProperties.EngineFailureTearsDownSilently | Soundtrack/AACShoutcastStreamPlayer.swift:78-85 | if engine start fails, the session is dropped, the node is not played and no notification goes out |
| StreamPlayerProperties.StepEmits | Soundtrack/AACShoutcastStreamPlayer.swift:66-94 | each event adds exactly the delegate calls listed by `Emitted` to the end of the log |
| StreamPlayerProperties.StepTitles | Soundtrack/AACShoutcastStreamPlayer.swift:92-94 | while a delegate is attached, an event adds its own title, if it has one, to the titles the delegate has seen. No other event adds a title |
| StreamPlayerProperties.TitlesReachDelegateInOrder | Soundtrack/AACShoutcastStreamPlayer.swift:92-94 | while a delegate is attached, it gets every reported title once, unchanged and in the order reported |
| StreamPlayerProperties.StepSchedules | Soundtrack/AACShoutcastStreamPlayer.swift:104-106 | an event that does not stop the node adds its buffer, if it has one, to the end of the schedule |
| StreamPlayerProperties.ScheduleKeepsEmissionOrder | Soundtrack/AACShoutcastStreamPlayer.swift:104-106 | until the node is stopped, the schedule is the buffers it already had followed by every decoded buffer in emission order |
| StreamPlayerProperties.DecodedBuffersOnlyExtendSchedule | Soundtrack/AACShoutcastStreamPlayer.swift:104-106 | a run of decoded buffers changes nothing but the schedule |
| StreamPlayerProperties.BufferScheduledUnguarded | Soundtrack/AACShoutcastStreamPlayer.swift:104-106 | a buffer is scheduled whatever the session or engine state is. Notifications, session and engine do not change |
| StreamPlayerProperties.RunConcat | Soundtrack/AACShoutcastStreamPlayer.swift:32-33 | on the one serial queue, handling two sequences of events one after the other is the same as handling their concatenation |
| StreamPlayerProperties.ConnectAndDeliver | Soundtrack/AACShoutcastStreamPlayer.swift:45-98 | from a new player: attaching a delegate, then `play()`, a successful connect and one data chunk give exactly one session. Its parser holds that chunk, the engine and node run, and the log is one start notification |
| StreamPlayerProperties.ConnectThenThreeBuffers | Soundtrack/AACShoutcastStreamPlayer.swift:66-106 | if the stream connects, delivers one chunk and three buffers decode, the chunk reaches the parser without trapping, exactly one start notification goes out and the three buffers are scheduled in order, with the engine and node running |

## Left out

- ADTS frame splitting, header validation and AAC-to-PCM decoding. `ADTSParser`
  is not part of this model. `parse` only records the bytes handed to the
  parser. A decoded buffer or a parser error is an independent event, although
  the parser raises them from inside `parse`.
- `ShoutcastStream`: the HTTP transport and the ICY metadata. It is not part of
  this model. Its connect, disconnect, data and title callbacks are events.
- The internals of `AVAudioEngine` and `AVAudioPlayerNode`, which are foreign
  framework code. Not modelled: attaching, connecting and preparing the graph
  in `init`, real-time rendering (the schedule is never consumed), and the real
  PCM format.
- Dispatch queues and weak references. Every callback is assumed to run on the
  one serial queue. A delegate that is deallocated is not modelled: the
  delegate flag changes only through `SetDelegate`.
- The (stream, parser) argument of each callback. The source ignores which
  object raised the event, and so does the model.
- Binding the parser's delegate (`adtsParser?.delegate = self`). The model
  assumes that the player receives every parser callback.
- The warning that is logged when the engine fails to start.
- `Soundtrack-macOS/AppDelegate.swift`: UI and app-lifecycle code.
