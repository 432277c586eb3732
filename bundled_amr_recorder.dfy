/** The BenzAMRRecorder class of the recorder bundle (BenzAMRRecorder.js):
    an older build of the same front end. It has no initialisation guard,
    no 'cancelRecord' event, no raw-data field and no playing flag; its
    decoding has no fallback; it attaches its end callback to the node and
    plays through the slowdown `playPcm` of that bundle. */
module BundledAmrRecorder {
  import opened Pcm
  import opened WebAudio
  import E = Events
  import R = Recorder
  import B = BundledAudioContext

  class BenzAMRRecorder {
    const audio: B.Context
    const codec: AmrCodec
    var isInit: bool
    var isInitRecorder: bool
    var samples: Option<seq<Sample>>
    var blob: Option<Blob>
    /** The five `_onX` fields, keyed by event; an absent key is null. */
    var handlers: map<E.Event, Callback>
    /** The handlers invoked so far, in order. */
    ghost var fired: seq<Callback>

    function Slot(e: E.Event): Option<Callback>
      reads this
    {
      if e in handlers then Some(handlers[e]) else None
    }

    ghost function Repr(): set<object>
      reads this, audio
    {
      {this} + audio.Repr()
    }

    ghost predicate Valid()
      reads Repr()
    {
      audio.Valid() && (isInitRecorder ==> audio.recorder != null) && E.CancelRecord !in handlers
    }

    constructor (audio: B.Context, codec: AmrCodec)
      requires audio.Valid()
      ensures Valid() && this.audio == audio && this.codec == codec
      ensures !isInit && !isInitRecorder && samples == Some([]) && blob == None
      ensures handlers == map[] && fired == []
    {
      this.audio := audio;
      this.codec := codec;
      isInit := false;
      isInitRecorder := false;
      samples := Some([]);
      blob := None;
      handlers := map[];
      fired := [];
    }

    function PlaybackRate(): (rate: int)
      reads this
      requires audio.engine.sampleRate > 0
      ensures rate > 0
      ensures isInitRecorder ==> rate == audio.engine.sampleRate
      ensures !isInitRecorder ==> rate == DefaultSampleRate
    {
      if isInitRecorder then audio.engine.sampleRate else DefaultSampleRate
    }

    /** `initWithAMRArray(array)`: store the decoding, null included, and
        mark the instance initialised before the outcome is known; reject
        when the decoding is null. Any earlier audio is replaced. */
    method InitWithAMRArray(bytes: seq<Byte>) returns (res: Result<()>)
      requires Valid()
      modifies this
      ensures Valid()
      ensures isInit && samples == codec.decode(bytes)
      ensures res.Ok? <==> codec.decode(bytes).Some?
      ensures res.Err? ==> res.error == DecodeFailed
      ensures isInitRecorder == old(isInitRecorder) && blob == old(blob)
      ensures handlers == old(handlers) && fired == old(fired)
    {
      samples := codec.decode(bytes);
      isInit := true;
      if samples.None? {
        return Err(DecodeFailed);
      }
      res := Ok(());
    }

    /** `initWithBlob(blob)`: keep the Blob, then initialise from its bytes. */
    method InitWithBlob(b: Blob) returns (res: Result<()>)
      requires Valid()
      modifies this
      ensures Valid()
      ensures blob == Some(b) && isInit && samples == codec.decode(b.bytes)
      ensures res.Ok? <==> codec.decode(b.bytes).Some?
      ensures res.Err? ==> res.error == DecodeFailed
      ensures isInitRecorder == old(isInitRecorder)
      ensures handlers == old(handlers) && fired == old(fired)
    {
      blob := Some(b);
      res := InitWithAMRArray(b.bytes);
    }

    /** `initWithUrl(url)`: fetch the URL as a Blob (None when the request
        fails) and initialise from it. */
    method InitWithUrl(fetched: Option<Blob>) returns (res: Result<()>)
      requires Valid()
      modifies this
      ensures Valid()
      ensures fetched.None? ==>
        && res == Err(FetchFailed)
        && isInit == old(isInit) && samples == old(samples) && blob == old(blob)
      ensures fetched.Some? ==>
        && blob == fetched && isInit && samples == codec.decode(fetched.value.bytes)
        && (res.Ok? <==> codec.decode(fetched.value.bytes).Some?)
        && (res.Err? ==> res.error == DecodeFailed)
      ensures isInitRecorder == old(isInitRecorder)
      ensures handlers == old(handlers) && fired == old(fired)
    {
      if fetched.None? {
        return Err(FetchFailed);
      }
      res := InitWithBlob(fetched.value);
    }

    /** `initWithRecord()`: obtain the shared recorder. */
    method InitWithRecord(granted: bool) returns (res: Result<()>)
      requires Valid()
      modifies this, audio
      ensures Valid() && audio.State() == old(audio.State())
      ensures old(audio.recorder) != null ==> audio.recorder == old(audio.recorder)
      ensures res.Err? ==> audio.recorder == old(audio.recorder)
      ensures old(audio.recorder) == null && res.Ok? ==>
        && fresh(audio.recorder) && fresh(audio.recorder.worker) && !audio.recorder.recording
        && audio.recorder.getBufferCallbacks == [] && audio.recorder.replies == []
        && audio.recorder.worker.recLength == 0 && audio.recorder.worker.recBuffers == [[]]
      ensures res.Ok? <==> old(audio.recorder) != null || granted
      ensures res.Err? ==> res.error == PermissionDenied && isInitRecorder == old(isInitRecorder)
      ensures res.Ok? ==> isInitRecorder && audio.recorder != null
      ensures isInit == old(isInit) && samples == old(samples) && blob == old(blob)
      ensures handlers == old(handlers) && fired == old(fired)
    {
      res := audio.InitRecorder(granted);
      if res.Ok? {
        isInitRecorder := true;
      }
    }

    /** `on(action, fn)`, whose switch has no 'cancelRecord' case. */
    method On(action: string, fn: Option<Callback>)
      requires Valid()
      modifies this
      ensures Valid()
      ensures isInit == old(isInit) && isInitRecorder == old(isInitRecorder)
      ensures samples == old(samples) && blob == old(blob) && fired == old(fired)
      ensures forall e :: Slot(e) == if fn.Some? && E.LegacyEventOf(action) == Some(e) then fn else old(Slot(e))
    {
      if fn.Some? {
        match E.LegacyEventOf(action)
        case Some(e) => handlers := handlers[e := fn.value];
        case None =>
      }
    }

    /** `_onEndCallback()`: the node's `onended` handler; fires 'ended'. */
    method OnEndCallback()
      modifies this
      ensures old(Valid()) ==> Valid()
      ensures fired == old(fired) + E.Invoked(Slot(E.Ended))
      ensures isInit == old(isInit) && isInitRecorder == old(isInitRecorder)
      ensures samples == old(samples) && blob == old(blob) && handlers == old(handlers)
    {
      fired := fired + E.Invoked(Slot(E.Ended));
    }

    /** `play()`: refuse an uninitialised instance; otherwise fire 'play'
        and play the samples at PlaybackRate with the end callback attached.
        Whatever the buffer and playbackRate chosen, playback lasts as long
        as the samples at PlaybackRate. */
    method Play() returns (res: Result<()>)
      requires Valid()
      modifies this, audio
      ensures Valid() && handlers == old(handlers)
      ensures isInit == old(isInit) && samples == old(samples) && blob == old(blob)
      ensures audio.recorder == old(audio.recorder) && isInitRecorder == old(isInitRecorder)
      ensures !old(isInit) ==>
        res == Err(NotInitialized) && fired == old(fired) && audio.State() == old(audio.State())
      ensures old(isInit) ==>
        && fired == old(fired) + E.Invoked(Slot(E.Play))
        && var installed := old(audio.State()).StopPcm().Install();
           match samples
           case None => res == Err(NullSamples) && audio.State() == installed
           case Some(s) =>
             match B.SlowdownBuffer(audio.engine, s, PlaybackRate())
             case Err(e) => res == Err(e) && audio.State() == installed
             case Ok(choice) =>
               && res == Ok(()) && audio.State() == installed.Start(choice.0, choice.1, true)
               && Seconds(choice.0, choice.1) == |s| as real / PlaybackRate() as real
    {
      if !isInit {
        return Err(NotInitialized);
      }
      fired := fired + E.Invoked(Slot(E.Play));
      var rate := if isInitRecorder then audio.GetRecordSampleRate() else DefaultSampleRate;
      res := audio.PlayPcm(samples, rate, true);
    }

    /** `stop()`: stop playback and fire 'stop'. */
    method Stop()
      requires Valid()
      modifies this, audio
      ensures Valid() && handlers == old(handlers)
      ensures isInit == old(isInit) && samples == old(samples) && blob == old(blob)
      ensures audio.State() == old(audio.State()).StopPcm() && audio.recorder == old(audio.recorder)
      ensures isInitRecorder == old(isInitRecorder)
      ensures fired == old(fired) + E.Invoked(Slot(E.Stop))
    {
      audio.StopPcm();
      fired := fired + E.Invoked(Slot(E.Stop));
    }

    /** `startRecord()`: start the shared recorder afresh (if there is
        one) and fire 'startRecord'. */
    method StartRecord()
      requires Valid()
      modifies this, if audio.recorder != null then {audio.recorder, audio.recorder.worker} else {}
      ensures Valid() && handlers == old(handlers)
      ensures isInit == old(isInit) && samples == old(samples) && blob == old(blob)
      ensures isInitRecorder == old(isInitRecorder)
      ensures fired == old(fired) + E.Invoked(Slot(E.StartRecord))
      ensures audio.recorder != null ==>
        && audio.recorder.recording
        && audio.recorder.worker.recLength == 0
        && audio.recorder.worker.recBuffers[0] == []
      ensures audio.recorder != null ==>
        audio.recorder.getBufferCallbacks == old(audio.recorder.getBufferCallbacks) && audio.recorder.replies == old(audio.recorder.replies)
    {
      audio.StartRecord();
      fired := fired + E.Invoked(Slot(E.StartRecord));
    }

    /** `finishRecord()`, up to the point where it waits for the samples. */
    method FinishRecord(resolve: Callback) returns (requested: bool)
      requires Valid()
      modifies if audio.recorder != null then {audio.recorder} else {}
      ensures Valid()
      ensures requested <==> audio.recorder != null
      ensures requested ==>
        && !audio.recorder.recording
        && audio.recorder.getBufferCallbacks == old(audio.recorder.getBufferCallbacks) + [resolve]
        && |audio.recorder.replies| == |old(audio.recorder.replies)| + 1
        && audio.recorder.replies[..|old(audio.recorder.replies)|] == old(audio.recorder.replies)
        && |audio.recorder.replies[|old(audio.recorder.replies)|].data| == 1
        && audio.recorder.replies[|old(audio.recorder.replies)|].data[0] == R.Flatten(audio.recorder.worker.recBuffers[0])
    {
      audio.StopRecord();
      requested := audio.GenerateRecordSamples(resolve);
    }

    /** The rest of `finishRecord()`: keep the samples, store their AMR
        encoding at the context's rate as the Blob, mark the instance
        initialised and fire 'finishRecord'. */
    method CompleteFinishRecord(recorded: seq<Sample>)
      requires Valid()
      modifies this
      ensures Valid() && handlers == old(handlers) && isInitRecorder == old(isInitRecorder)
      ensures isInit && samples == Some(recorded)
      ensures blob == Some(EncodeAmrBlob(codec, recorded, audio.engine.sampleRate))
      ensures fired == old(fired) + E.Invoked(Slot(E.FinishRecord))
    {
      samples := Some(recorded);
      blob := Some(EncodeAmrBlob(codec, recorded, audio.GetRecordSampleRate()));
      isInit := true;
      fired := fired + E.Invoked(Slot(E.FinishRecord));
    }

    /** `cancelRecord()`: stop the recorder; no event is fired. */
    method CancelRecord()
      requires Valid()
      modifies if audio.recorder != null then {audio.recorder} else {}
      ensures Valid()
      ensures audio.recorder != null ==> !audio.recorder.recording
      ensures audio.recorder != null ==>
        audio.recorder.getBufferCallbacks == old(audio.recorder.getBufferCallbacks) && audio.recorder.replies == old(audio.recorder.replies)
    {
      audio.StopRecord();
    }

    /** `isRecording()`: false while there is no recorder. */
    method IsRecording() returns (recording: bool)
      requires Valid()
      ensures recording <==> audio.recorder != null && audio.recorder.recording
    {
      recording := audio.IsRecording();
    }
  }

  /** Without a guard, a failed decode can be followed by a successful
      one, which replaces the null samples. */
  method ReinitAfterFailedDecode(r: BenzAMRRecorder, bad: seq<Byte>, good: seq<Byte>)
    returns (first: Result<()>, second: Result<()>)
    requires r.Valid()
    requires r.codec.decode(bad).None? && r.codec.decode(good).Some?
    modifies r
    ensures first == Err(DecodeFailed) && second.Ok?
    ensures r.isInit && r.samples == r.codec.decode(good)
  {
    first := r.InitWithAMRArray(bad);
    second := r.InitWithAMRArray(good);
  }
}
