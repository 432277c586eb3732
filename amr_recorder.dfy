/** src/BenzAMRRecorder.js: the public BenzAMRRecorder class. One instance
    holds one piece of audio (decoded samples, the AMR bytes and a Blob) and
    its event handlers, and plays or records it through the shared state of
    src/audioContext.js. Every initialiser refuses an instance that is
    already initialised. */
module AmrRecorder {
  import opened Pcm
  import opened WebAudio
  import opened Upsampling
  import E = Events
  import R = Recorder
  import A = AudioContext

  /** The fields of an instance that describe its audio: `_isInit`,
      `_isInitRecorder`, `_samples` (None once a failed decode stored null),
      `_rawData` and `_blob`. */
  datatype Media = Media(
    isInit: bool,
    isInitRecorder: bool,
    samples: Option<seq<Sample>>,
    rawData: seq<Byte>,
    blob: Option<Blob>)

  /** A new instance: an empty Float32Array, an empty Uint8Array, no Blob. */
  const InitialMedia: Media := Media(false, false, Some([]), [], None)

  /** The guard at the head of every initialiser. */
  predicate Initialized(m: Media) {
    m.isInit || m.isInitRecorder
  }

  /** `initWithArrayBuffer(array)`: decode the AMR bytes; when the codec
      cannot, let the audio context decode them (`contextDecoded`, None when
      it rejects) and re-encode the result as AMR at the context's rate. */
  function InitArray(codec: AmrCodec, ctxRate: int, m: Media, bytes: seq<Byte>, contextDecoded: Option<seq<Sample>>)
    : (out: (Result<()>, Media))
    ensures Initialized(m) <==> out.0 == Err(AlreadyInitialized)
    ensures Initialized(m) ==> out.1 == m
    ensures out.0.Ok? <==> !Initialized(m) && (codec.decode(bytes).Some? || contextDecoded.Some?)
    ensures out.0 == Err(DecodeFailed) <==> !Initialized(m) && codec.decode(bytes).None? && contextDecoded.None?
    ensures !Initialized(m) ==> out.1.isInit && out.1.isInitRecorder == m.isInitRecorder
    ensures out.0 == Err(DecodeFailed) ==> out.1 == m.(isInit := true, samples := None)
    ensures out.0.Ok? ==> out.1.samples == codec.decode(out.1.rawData)
    ensures out.0.Ok? && codec.decode(bytes).Some? ==>
      out.1 == m.(isInit := true, samples := codec.decode(bytes), rawData := bytes)
    ensures out.0.Ok? && codec.decode(bytes).None? ==>
      && out.1.rawData == EncodeAmr(codec, contextDecoded.value, ctxRate)
      && out.1.blob == Some(AmrBlob(out.1.rawData))
  {
    if Initialized(m) then
      (Err(AlreadyInitialized), m)
    else
      var decoded := codec.decode(bytes);
      if decoded.Some? then
        (Ok(()), m.(isInit := true, samples := decoded, rawData := bytes))
      else
        match contextDecoded
        case None => (Err(DecodeFailed), m.(isInit := true, samples := None))
        case Some(data) =>
          var raw := EncodeAmr(codec, data, ctxRate);
          (Ok(()), m.(isInit := true, rawData := raw, samples := codec.decode(raw), blob := Some(AmrBlob(raw))))
  }

  /** `initWithBlob(blob)`: keep the Blob, then initialise from its bytes.
      On success the Blob, the raw data and the samples agree: the Blob
      holds the raw data (the given Blob, or the re-encoded one) and the
      samples are its decoding. */
  function InitBlob(codec: AmrCodec, ctxRate: int, m: Media, b: Blob, contextDecoded: Option<seq<Sample>>)
    : (out: (Result<()>, Media))
    ensures Initialized(m) <==> out.0 == Err(AlreadyInitialized)
    ensures Initialized(m) ==> out.1 == m
    ensures out.0.Ok? <==> !Initialized(m) && (codec.decode(b.bytes).Some? || contextDecoded.Some?)
    ensures out.0.Ok? ==>
      && out.1.isInit
      && out.1.blob.Some? && out.1.blob.value.bytes == out.1.rawData
      && out.1.samples == codec.decode(out.1.rawData)
    ensures out.0.Ok? && codec.decode(b.bytes).Some? ==> out.1.blob == Some(b)
    ensures out.0 == Err(DecodeFailed) ==> out.1.isInit && out.1.samples.None? && out.1.blob == Some(b)
  {
    if Initialized(m) then
      (Err(AlreadyInitialized), m)
    else
      InitArray(codec, ctxRate, m.(blob := Some(b)), b.bytes, contextDecoded)
  }

  /** `new Float32Array(10)`: the silent clip `initWithUrl` plays first. */
  const Silence: seq<Sample> := seq(10, _ => 0.0)

  class BenzAMRRecorder {
    /** The shared state of src/audioContext.js. */
    const audio: A.Context
    /** The bundled AMR-NB codec. */
    const codec: AmrCodec
    var isInit: bool
    var isInitRecorder: bool
    var samples: Option<seq<Sample>>
    var rawData: seq<Byte>
    var blob: Option<Blob>
    /** The six `_onX` fields, keyed by event; an absent key is null. */
    var handlers: map<E.Event, Callback>
    var isPlaying: bool
    /** The handlers invoked so far, in order. */
    ghost var fired: seq<Callback>

    function Loaded(): Media
      reads this
    {
      Media(isInit, isInitRecorder, samples, rawData, blob)
    }

    function Slot(e: E.Event): Option<Callback>
      reads this
    {
      if e in handlers then Some(handlers[e]) else None
    }

    ghost function Repr(): set<object>
      reads this, audio
    {
      {this} + audio.Repr()
    }

    /** The shared state is consistent, and `_isInitRecorder` is only set
        once the shared recorder exists. */
    ghost predicate Valid()
      reads Repr()
    {
      audio.Valid() && (isInitRecorder ==> audio.recorder != null)
    }

    constructor (audio: A.Context, codec: AmrCodec)
      requires audio.Valid()
      ensures Valid() && this.audio == audio && this.codec == codec
      ensures Loaded() == InitialMedia && handlers == map[] && !isPlaying && fired == []
    {
      this.audio := audio;
      this.codec := codec;
      isInit := false;
      isInitRecorder := false;
      samples := Some([]);
      rawData := [];
      blob := None;
      handlers := map[];
      isPlaying := false;
      fired := [];
    }

    /** The rate the audio is played and timed at: the context's rate for
        a recording, 8000 Hz for loaded AMR. */
    function PlaybackRate(): (rate: int)
      reads this
      requires audio.engine.sampleRate > 0
      ensures rate > 0
      ensures isInitRecorder ==> rate == audio.engine.sampleRate
      ensures !isInitRecorder ==> rate == DefaultSampleRate
    {
      if isInitRecorder then audio.engine.sampleRate else DefaultSampleRate
    }

    method InitWithArrayBuffer(bytes: seq<Byte>, contextDecoded: Option<seq<Sample>>) returns (res: Result<()>)
      requires Valid()
      modifies this
      ensures Valid()
      ensures (res, Loaded()) == InitArray(codec, audio.engine.sampleRate, old(Loaded()), bytes, contextDecoded)
      ensures handlers == old(handlers) && isPlaying == old(isPlaying) && fired == old(fired)
    {
      if isInit || isInitRecorder {
        return Err(AlreadyInitialized);
      }
      samples := codec.decode(bytes);
      isInit := true;
      if samples.None? {
        if contextDecoded.None? {
          return Err(DecodeFailed);
        }
        isInit := true;
        rawData := EncodeAmr(codec, contextDecoded.value, audio.engine.sampleRate);
        samples := codec.decode(rawData);
        blob := Some(AmrBlob(rawData));
      } else {
        rawData := bytes;
      }
      res := Ok(());
    }

    method InitWithBlob(b: Blob, contextDecoded: Option<seq<Sample>>) returns (res: Result<()>)
      requires Valid()
      modifies this
      ensures Valid()
      ensures (res, Loaded()) == InitBlob(codec, audio.engine.sampleRate, old(Loaded()), b, contextDecoded)
      ensures handlers == old(handlers) && isPlaying == old(isPlaying) && fired == old(fired)
    {
      if isInit || isInitRecorder {
        return Err(AlreadyInitialized);
      }
      blob := Some(b);
      res := InitWithArrayBuffer(b.bytes, contextDecoded);
    }

    /** `initWithUrl(url)`: play the silent clip at 24000 Hz (which throws
        like any playPcm), then initialise from the fetched bytes, or reject
        when the request fails (`fetched` is None). */
    method InitWithUrl(fetched: Option<seq<Byte>>, contextDecoded: Option<seq<Sample>>) returns (res: Result<()>)
      requires Valid()
      modifies this, audio
      ensures Valid() && audio.recorder == old(audio.recorder)
      ensures handlers == old(handlers) && isPlaying == old(isPlaying) && fired == old(fired)
      ensures Initialized(old(Loaded())) ==>
        res == Err(AlreadyInitialized) && Loaded() == old(Loaded()) && audio.State() == old(audio.State())
      ensures !Initialized(old(Loaded())) ==>
        var installed := old(audio.State()).StopPcm().Install();
        match UpsamplingBuffer(audio.engine, Silence, 24000)
        case Err(e) => res == Err(e) && Loaded() == old(Loaded()) && audio.State() == installed
        case Ok(buffer) =>
          && audio.State() == installed.Start(buffer, 1.0, false)
          && (fetched.None? ==> res == Err(FetchFailed) && Loaded() == old(Loaded()))
          && (fetched.Some? ==>
                (res, Loaded()) == InitArray(codec, audio.engine.sampleRate, old(Loaded()), fetched.value, contextDecoded))
    {
      if isInit || isInitRecorder {
        return Err(AlreadyInitialized);
      }
      var primed := audio.PlayPcm(Some(Silence), 24000);
      if primed.Err? {
        return primed;
      }
      if fetched.None? {
        return Err(FetchFailed);
      }
      res := InitWithArrayBuffer(fetched.value, contextDecoded);
    }

    /** `initWithRecord()`: obtain the shared recorder (`granted` is the
        user's answer to the microphone prompt when one is needed). */
    method InitWithRecord(granted: bool) returns (res: Result<()>)
      requires Valid()
      modifies this, audio
      ensures Valid() && audio.State() == old(audio.State())
      ensures old(audio.recorder) != null ==> audio.recorder == old(audio.recorder)
      ensures res.Err? ==> audio.recorder == old(audio.recorder)
      ensures old(audio.recorder) == null && res.Ok? ==>
        && fresh(audio.recorder) && fresh(audio.recorder.worker) && !audio.recorder.recording
        && audio.recorder.getBufferCallbacks == [] && audio.recorder.replies == []
        && audio.recorder.worker.recLength == 0 && audio.recorder.worker.recBuffers == [[]]
      ensures handlers == old(handlers) && isPlaying == old(isPlaying) && fired == old(fired)
      ensures Initialized(old(Loaded())) ==>
        res == Err(AlreadyInitialized) && Loaded() == old(Loaded()) && audio.recorder == old(audio.recorder)
      ensures !Initialized(old(Loaded())) ==>
        && (res.Ok? <==> old(audio.recorder) != null || granted)
        && (res.Err? ==> res.error == PermissionDenied && Loaded() == old(Loaded()))
        && (res.Ok? ==> Loaded() == old(Loaded()).(isInitRecorder := true) && audio.recorder != null)
    {
      if isInit || isInitRecorder {
        return Err(AlreadyInitialized);
      }
      res := audio.InitRecorder(granted);
      if res.Ok? {
        isInitRecorder := true;
      }
    }

    /** `on(action, fn)`: a function (`fn` is Some) is stored in the slot
        the action names; anything else, or an unknown action, is ignored. */
    method On(action: string, fn: Option<Callback>)
      modifies this
      ensures Loaded() == old(Loaded()) && isPlaying == old(isPlaying) && fired == old(fired)
      ensures forall e :: Slot(e) == if fn.Some? && E.EventOf(action) == Some(e) then fn else old(Slot(e))
    {
      if fn.Some? {
        match E.EventOf(action)
        case Some(e) => handlers := handlers[e := fn.value];
        case None =>
      }
    }

    /** `_onEndCallback()`: the handler `play` binds for the end of
        playback; it fires 'stop' and then 'ended'. */
    method OnEndCallback()
      modifies this
      ensures !isPlaying
      ensures fired == old(fired) + E.Invoked(Slot(E.Stop)) + E.Invoked(Slot(E.Ended))
      ensures Loaded() == old(Loaded()) && handlers == old(handlers)
    {
      isPlaying := false;
      fired := fired + E.Invoked(Slot(E.Stop));
      fired := fired + E.Invoked(Slot(E.Ended));
    }

    /** `play()`: refuse an uninitialised instance; otherwise fire 'play',
        mark the instance playing and play the samples at PlaybackRate. The
        bound end callback is passed to a playPcm that takes no such
        parameter, so no handler is attached to the node. The buffer that
        starts lasts exactly GetDuration() seconds. */
    method Play() returns (res: Result<()>)
      requires Valid()
      modifies this, audio
      ensures Valid() && Loaded() == old(Loaded()) && handlers == old(handlers)
      ensures audio.recorder == old(audio.recorder)
      ensures !old(isInit) ==>
        && res == Err(NotInitialized)
        && isPlaying == old(isPlaying) && fired == old(fired) && audio.State() == old(audio.State())
      ensures old(isInit) ==>
        && isPlaying && fired == old(fired) + E.Invoked(Slot(E.Play))
        && var installed := old(audio.State()).StopPcm().Install();
           match samples
           case None => res == Err(NullSamples) && audio.State() == installed
           case Some(s) =>
             match UpsamplingBuffer(audio.engine, s, PlaybackRate())
             case Err(e) => res == Err(e) && audio.State() == installed
             case Ok(buffer) =>
               && res == Ok(()) && audio.State() == installed.Start(buffer, 1.0, false)
               && Seconds(buffer, 1.0) == GetDuration().value
    {
      if !isInit {
        return Err(NotInitialized);
      }
      fired := fired + E.Invoked(Slot(E.Play));
      isPlaying := true;
      var rate := if isInitRecorder then audio.engine.sampleRate else DefaultSampleRate;
      res := audio.PlayPcm(samples, rate);
    }

    /** `stop()`: stop playback, clear the playing flag and fire 'stop'. */
    method Stop()
      requires Valid()
      modifies this, audio
      ensures Valid() && Loaded() == old(Loaded()) && handlers == old(handlers)
      ensures audio.State() == old(audio.State()).StopPcm() && audio.recorder == old(audio.recorder)
      ensures !isPlaying && fired == old(fired) + E.Invoked(Slot(E.Stop))
    {
      audio.StopPcm();
      isPlaying := false;
      fired := fired + E.Invoked(Slot(E.Stop));
    }

    /** `startRecord()`: start the shared recorder afresh (if there is
        one) and fire 'startRecord' in any case. */
    method StartRecord()
      requires Valid()
      modifies this, if audio.recorder != null then {audio.recorder, audio.recorder.worker} else {}
      ensures Valid() && Loaded() == old(Loaded()) && handlers == old(handlers) && isPlaying == old(isPlaying)
      ensures fired == old(fired) + E.Invoked(Slot(E.StartRecord))
      ensures audio.recorder != null ==>
        && audio.recorder.recording
        && audio.recorder.worker.recLength == 0
        && audio.recorder.worker.recBuffers[0] == []
      ensures audio.recorder != null ==>
        audio.recorder.getBufferCallbacks == old(audio.recorder.getBufferCallbacks) && audio.recorder.replies == old(audio.recorder.replies)
    {
      audio.StartRecord();
      fired := fired + E.Invoked(Slot(E.StartRecord));
    }

    /** `finishRecord()`, up to the point where it waits: stop the recorder
        and ask it for its samples, with `resolve` as the callback. Nothing
        is requested when there is no recorder, and the promise never
        settles. */
    method FinishRecord(resolve: Callback) returns (requested: bool)
      requires Valid()
      modifies if audio.recorder != null then {audio.recorder} else {}
      ensures Valid()
      ensures requested <==> audio.recorder != null
      ensures requested ==>
        && !audio.recorder.recording
        && audio.recorder.getBufferCallbacks == old(audio.recorder.getBufferCallbacks) + [resolve]
        && |audio.recorder.replies| == |old(audio.recorder.replies)| + 1
        && audio.recorder.replies[..|old(audio.recorder.replies)|] == old(audio.recorder.replies)
        && |audio.recorder.replies[|old(audio.recorder.replies)|].data| == 1
        && audio.recorder.replies[|old(audio.recorder.replies)|].data[0] == R.Flatten(audio.recorder.worker.recBuffers[0])
    {
      audio.StopRecord();
      requested := audio.GenerateRecordSamples(resolve);
    }

    /** The rest of `finishRecord()`, once the recorder hands over the
        samples of the first channel: keep them, encode them as AMR at the
        context's rate, wrap that in a Blob, mark the instance initialised
        and fire 'finishRecord'. */
    method CompleteFinishRecord(recorded: seq<Sample>)
      requires Valid()
      modifies this
      ensures Valid() && handlers == old(handlers) && isPlaying == old(isPlaying)
      ensures isInit && isInitRecorder == old(isInitRecorder) && samples == Some(recorded)
      ensures rawData == EncodeAmr(codec, recorded, audio.engine.sampleRate)
      ensures blob == Some(AmrBlob(rawData))
      ensures fired == old(fired) + E.Invoked(Slot(E.FinishRecord))
    {
      samples := Some(recorded);
      rawData := EncodeAmr(codec, recorded, audio.engine.sampleRate);
      blob := Some(AmrBlob(rawData));
      isInit := true;
      fired := fired + E.Invoked(Slot(E.FinishRecord));
    }

    /** `cancelRecord()`: stop the recorder and fire 'cancelRecord'. */
    method CancelRecord()
      requires Valid()
      modifies this, if audio.recorder != null then {audio.recorder} else {}
      ensures Valid() && Loaded() == old(Loaded()) && handlers == old(handlers) && isPlaying == old(isPlaying)
      ensures audio.recorder != null ==> !audio.recorder.recording
      ensures audio.recorder != null ==>
        audio.recorder.getBufferCallbacks == old(audio.recorder.getBufferCallbacks) && audio.recorder.replies == old(audio.recorder.replies)
      ensures fired == old(fired) + E.Invoked(Slot(E.CancelRecord))
    {
      audio.StopRecord();
      fired := fired + E.Invoked(Slot(E.CancelRecord));
    }

    /** `isRecording()`: the shared recorder's flag; it throws before any
        instance has obtained the recorder, never after this one has. */
    method IsRecording() returns (r: Result<bool>)
      requires Valid()
      ensures isInitRecorder ==> r.Ok?
      ensures r.Ok? <==> audio.recorder != null
      ensures r.Err? ==> r.error == NoRecorder
      ensures r.Ok? ==> r.value == audio.recorder.recording
    {
      r := audio.IsRecording();
    }

    /** `getDuration()`: the number of samples over PlaybackRate, in
        seconds; reading the length of null samples throws. */
    function GetDuration(): (d: Result<real>)
      reads this
      requires audio.engine.sampleRate > 0
      ensures samples.None? <==> d.Err?
      ensures d.Err? ==> d.error == NullSamples
      ensures d.Ok? ==> d.value * PlaybackRate() as real == |samples.value| as real
    {
      match samples
      case None => Err(NullSamples)
      case Some(s) => Ok(|s| as real / PlaybackRate() as real)
    }
  }

  /** A recording round trip: finishRecord on an idle recorder hands the
      samples of the first channel, exactly as recorded, to the instance,
      which then holds their AMR encoding. */
  method FinishRecordKeepsRecording(r: BenzAMRRecorder, resolve: Callback) returns (handed: Option<Callback>)
    requires r.Valid() && r.audio.recorder != null
    requires r.audio.recorder.getBufferCallbacks == [] && r.audio.recorder.replies == []
    modifies r, r.audio.recorder
    ensures r.Valid() && handed == Some(resolve)
    ensures !r.audio.recorder.recording && r.audio.recorder.replies == []
    ensures r.isInit && r.samples == Some(R.Flatten(old(r.audio.recorder.worker.recBuffers[0])))
    ensures r.rawData == EncodeAmr(r.codec, r.samples.value, r.audio.engine.sampleRate)
  {
    var _ := r.FinishRecord(resolve);
    var data;
    handed, data := r.audio.recorder.DeliverReply();
    r.CompleteFinishRecord(data[0]);
  }

  /** The usual recording session: on a context with no recorder yet and
      permission granted, `initWithRecord` then `startRecord` leaves a
      recorder that is capturing into an empty buffer with nothing pending. */
  method RecordAfterInitWithRecord(r: BenzAMRRecorder) returns (res: Result<()>)
    requires r.Valid() && !Initialized(r.Loaded()) && r.audio.recorder == null
    modifies r, r.audio
    ensures r.Valid() && res.Ok? && r.isInitRecorder && r.PlaybackRate() == r.audio.engine.sampleRate
    ensures r.audio.recorder != null && r.audio.recorder.recording
    ensures r.audio.recorder.worker.recLength == 0 && r.audio.recorder.worker.recBuffers[0] == []
    ensures r.audio.recorder.getBufferCallbacks == [] && r.audio.recorder.replies == []
  {
    res := r.InitWithRecord(true);
    r.StartRecord();
  }

  /** A failed decode still marks the instance initialised, with null
      samples: a second initialiser is refused and `play` throws. */
  method FailedDecodeBlocksInstance(r: BenzAMRRecorder, bytes: seq<Byte>, other: seq<Byte>)
    returns (first: Result<()>, second: Result<()>, played: Result<()>)
    requires r.Valid() && !Initialized(r.Loaded())
    requires r.codec.decode(bytes).None?
    modifies r, r.audio
    ensures first == Err(DecodeFailed) && second == Err(AlreadyInitialized) && played == Err(NullSamples)
    ensures r.isInit && r.samples.None?
  {
    first := r.InitWithArrayBuffer(bytes, None);
    second := r.InitWithArrayBuffer(other, None);
    played := r.Play();
  }
}
