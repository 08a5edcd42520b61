/** The player object itself: the fields its methods reassign, and one method
    per method or callback of the source, each tied to the transition of the
    same name in StreamPlayerSpec. */
module StreamPlayer {
  import opened StreamPlayerSpec

  class AACShoutcastStreamPlayer {
    const url: string

    /** The session: the stream and its parser. */
    var stream: Option<Stream>
    var adtsParser: Option<Parser>

    /** The audio engine and the player node, kept abstract. */
    var engineRunning: bool
    var nodePlaying: bool
    /** The buffers scheduled on the player node, oldest first. */
    var scheduled: seq<PcmBuffer>

    /** Whether the weak `delegate` reference is set, and the calls made to it. */
    var hasDelegate: bool
    var notifications: seq<Notification>

    /** Source of fresh ids for new streams and parsers. */
    var nextId: nat

    function Model(): State
      reads this
    {
      State(url, stream, adtsParser, engineRunning, nodePlaying, scheduled,
            hasDelegate, notifications, nextId)
    }

    ghost predicate Valid()
      reads this
    {
      StreamPlayerSpec.Valid(Model())
    }

    /** `init(url:delegateQueue:)`; attaching, connecting and preparing the
        engine graph is not modelled. */
    constructor (url: string)
      ensures Valid()
      ensures Model() == Initial(url)
    {
      this.url := url;
      stream, adtsParser := None, None;
      engineRunning, nodePlaying, scheduled := false, false, [];
      hasDelegate, notifications := false, [];
      nextId := 0;
    }

    method SetDelegate(attached: bool)
      requires Valid()
      modifies this
      ensures Valid()
      ensures Model() == StreamPlayerSpec.SetDelegate(old(Model()), attached)
    {
      hasDelegate := attached;
    }

    method Play(outputFormat: AudioFormat)
      requires Valid()
      modifies this
      ensures Valid()
      ensures HasSession(Model()) && adtsParser.value.format == outputFormat
      ensures Model() == StreamPlayerSpec.Play(old(Model()), outputFormat)
    {
      Connect(outputFormat);
    }

    method Pause()
      requires Valid()
      modifies this
      ensures Valid()
      ensures stream.None? && adtsParser.None? && !engineRunning && !nodePlaying
      ensures Model() == StreamPlayerSpec.Pause(old(Model()))
    {
      StopPlayback();
      Disconnect();
    }

    /** `outputFormat` is what `playerNode.outputFormat(forBus: 0)` returns at
        the moment of the call. */
    method Connect(outputFormat: AudioFormat)
      requires Valid()
      modifies this
      ensures Valid()
      ensures Model() == StreamPlayerSpec.Connect(old(Model()), outputFormat)
    {
      adtsParser := Some(Parser(nextId, outputFormat, []));
      stream := Some(Stream(nextId + 1, url, AAC_MIME_TYPE));
      nextId := nextId + 2;
    }

    method Disconnect()
      requires Valid()
      modifies this
      ensures Valid()
      ensures Model() == StreamPlayerSpec.Disconnect(old(Model()))
    {
      stream := None;
      adtsParser := None;
    }

    /** `engineStarts` says whether `engine.start()` returns or throws; on a
        throw nothing after it runs. */
    method StartPlayback(engineStarts: bool) returns (result: Result<()>)
      requires Valid()
      modifies this
      ensures Valid()
      ensures result.Ok? <==> engineStarts
      ensures result.Ok? ==> Ok(Model()) == StreamPlayerSpec.StartPlayback(old(Model()), engineStarts)
      ensures result.Err? ==> Model() == old(Model())
    {
      if !engineStarts {
        return Err(EngineStartFailed);
      }
      engineRunning := true;
      nodePlaying := true;
      if hasDelegate {
        notifications := notifications + [DidStartPlayback];
      }
      result := Ok(());
      assert Model() == Notify(old(Model()).(engineRunning := true, nodePlaying := true), DidStartPlayback);
    }

    method StopPlayback()
      requires Valid()
      modifies this
      ensures Valid()
      ensures Model() == StreamPlayerSpec.StopPlayback(old(Model()))
    {
      nodePlaying := false;
      scheduled := [];
      engineRunning := false;
      if hasDelegate {
        notifications := notifications + [DidStopPlayback];
      }
    }

    method ShoutcastStreamDidConnect(engineStarts: bool)
      requires Valid()
      modifies this
      ensures Valid()
      ensures Model() == StreamPlayerSpec.ShoutcastStreamDidConnect(old(Model()), engineStarts)
    {
      var result := StartPlayback(engineStarts);
      if result.Err? {
        Disconnect();
        return;
      }
    }

    method ShoutcastStreamDidDisconnect()
      requires Valid()
      modifies this
      ensures Valid()
      ensures Model() == StreamPlayerSpec.ShoutcastStreamDidDisconnect(old(Model()))
    {
      Disconnect();
      StopPlayback();
    }

    method ShoutcastStreamGotNewTitle(title: string)
      requires Valid()
      modifies this
      ensures Valid()
      ensures Model() == StreamPlayerSpec.ShoutcastStreamGotNewTitle(old(Model()), title)
    {
      if hasDelegate {
        notifications := notifications + [DidChangeSong(title)];
      }
    }

    /** The force-unwrap `adtsParser!` demands a current parser. */
    method ShoutcastStreamGotData(data: Chunk)
      requires Valid()
      requires adtsParser.Some?
      modifies this
      ensures Valid()
      ensures Model() == StreamPlayerSpec.ShoutcastStreamGotData(old(Model()), data)
    {
      adtsParser := Some(Parse(adtsParser.value, data));
    }

    method AdtsParserDidEncounterError()
      requires Valid()
      modifies this
      ensures Valid()
      ensures Model() == StreamPlayerSpec.AdtsParserDidEncounterError(old(Model()))
    {
      Pause();
    }

    method AdtsParserDidParsePcmBuffer(buffer: PcmBuffer)
      requires Valid()
      modifies this
      ensures Valid()
      ensures Model() == StreamPlayerSpec.AdtsParserDidParsePcmBuffer(old(Model()), buffer)
    {
      scheduled := scheduled + [buffer];
    }
  }
}
