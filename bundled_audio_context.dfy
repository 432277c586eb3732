/** The audio-context part of the recorder bundle (BenzAMRRecorder.js):
    the same slot and recorder management as src/audioContext.js, but
    playback keeps the samples as they are and, when the engine refuses a
    rate, creates the buffer at a multiple of the rate and slows playback
    down by the same factor; the end callback is attached to the node. */
module BundledAudioContext {
  import opened Pcm
  import opened WebAudio
  import R = Recorder

  /** The fallback factor: 4 below 11025 Hz, else 2. */
  function SlowdownFactor(rate: int): (f: nat)
    ensures f == 4 <==> rate < 11025
    ensures f == 2 <==> rate >= 11025
  {
    if rate < 11025 then 4 else 2
  }

  /** The buffer and playbackRate this `playPcm` uses for `samples` at
      `rate` (already defaulted): the samples at `rate` and normal speed when
      the engine accepts it; otherwise the same frames at `factor * rate`
      played at 1/factor speed, or an exception when that is refused too. */
  function SlowdownBuffer(engine: Engine, samples: seq<Sample>, rate: int): (r: Result<(AudioBuffer, real)>)
    ensures r.Ok? <==>
      engine.accepts(|samples|, rate) || engine.accepts(|samples|, rate * SlowdownFactor(rate))
    ensures r.Err? ==> r.error == BufferRefused
    ensures engine.accepts(|samples|, rate) ==> r == Ok((AudioBuffer(rate, samples), 1.0))
    ensures r.Ok? ==> r.value.0.channel == samples && r.value.1 > 0.0
    ensures r.Ok? && !engine.accepts(|samples|, rate) ==>
      && r.value.0.sampleRate == rate * SlowdownFactor(rate)
      && r.value.1 * SlowdownFactor(rate) as real == 1.0
    ensures r.Ok? && rate > 0 ==>
      r.value.0.sampleRate > 0 && Seconds(r.value.0, r.value.1) == |samples| as real / rate as real
  {
    if engine.accepts(|samples|, rate) then
      Ok((AudioBuffer(rate, samples), 1.0))
    else if rate < 11025 then
      if engine.accepts(|samples|, rate * 4) then Ok((AudioBuffer(rate * 4, samples), 0.25)) else Err(BufferRefused)
    else
      if engine.accepts(|samples|, rate * 2) then Ok((AudioBuffer(rate * 2, samples), 0.5)) else Err(BufferRefused)
  }

  class Context {
    /** `ctx`. */
    const engine: Engine
    /** The source nodes `ctx` has created. */
    var nodes: seq<SourceNode>
    /** `curSourceNode`: an index into `nodes`, or null. */
    var curSourceNode: Option<nat>
    /** `recorder`: created at most once, by `initRecorder`. */
    var recorder: R.Recorder?

    function State(): Playback
      reads this
    {
      Playback(nodes, curSourceNode)
    }

    ghost function Repr(): set<object>
      reads this
    {
      {this} + if recorder != null then {recorder, recorder.worker} else {}
    }

    ghost predicate Valid()
      reads Repr()
    {
      && engine.sampleRate > 0
      && State().Valid()
      && (recorder != null ==> recorder.Valid() && recorder.config == R.DefaultConfig)
    }

    constructor (engine: Engine)
      requires engine.sampleRate > 0
      ensures Valid() && this.engine == engine
      ensures nodes == [] && curSourceNode == None && recorder == null
    {
      this.engine := engine;
      nodes := [];
      curSourceNode := None;
      recorder := null;
    }

    /** `stopPcm()`: stop the current node, if any, and clear the slot. */
    method StopPcm()
      requires Valid()
      modifies this
      ensures Valid() && recorder == old(recorder)
      ensures State() == old(State()).StopPcm()
    {
      if curSourceNode.Some? {
        var i := curSourceNode.value;
        nodes := nodes[i := nodes[i].(stops := nodes[i].stops + 1)];
        curSourceNode := None;
      }
    }

    /** `playPcm(samples, sampleRate, onEnded)`: default the rate to 8000,
        stop the previous node, install a new one, and start it on the
        buffer and playbackRate of SlowdownBuffer, with `onEnded` as its
        `onended` handler when one is given. */
    method PlayPcm(samples: Option<seq<Sample>>, sampleRate: int, onEnded: bool) returns (res: Result<()>)
      requires Valid()
      modifies this
      ensures Valid() && recorder == old(recorder)
      ensures var installed := old(State()).StopPcm().Install();
        match samples
        case None => res == Err(NullSamples) && State() == installed
        case Some(s) =>
          match SlowdownBuffer(engine, s, RateOrDefault(sampleRate))
          case Err(e) => res == Err(e) && State() == installed
          case Ok(choice) => res == Ok(()) && State() == installed.Start(choice.0, choice.1, onEnded)
    {
      var rate := if sampleRate == 0 then 8000 else sampleRate;
      StopPcm();
      nodes := nodes + [NewSourceNode];
      curSourceNode := Some(|nodes| - 1);
      if samples.None? {
        return Err(NullSamples);
      }
      var s := samples.value;
      var buffer: AudioBuffer;
      var playbackRate := 1.0;
      if engine.accepts(|s|, rate) {
        buffer := AudioBuffer(rate, s);
      } else if rate < 11025 {
        if !engine.accepts(|s|, rate * 4) {
          return Err(BufferRefused);
        }
        buffer := AudioBuffer(rate * 4, s);
        playbackRate := 0.25;
      } else {
        if !engine.accepts(|s|, rate * 2) {
          return Err(BufferRefused);
        }
        buffer := AudioBuffer(rate * 2, s);
        playbackRate := 0.5;
      }
      var i := curSourceNode.value;
      nodes := nodes[i := SourceNode(Some(buffer), playbackRate, onEnded, true, 0)];
      res := Ok(());
    }

    /** `initRecorder()`: create the recorder on the first successful call;
        afterwards resolve without creating another. */
    method InitRecorder(granted: bool) returns (res: Result<()>)
      requires Valid()
      modifies this
      ensures Valid() && State() == old(State())
      ensures old(recorder) != null ==> res == Ok(()) && recorder == old(recorder)
      ensures old(recorder) == null && !granted ==> res == Err(PermissionDenied) && recorder == null
      ensures old(recorder) == null && granted ==>
        && res == Ok(()) && recorder != null && fresh(recorder) && fresh(recorder.worker)
        && !recorder.recording && recorder.getBufferCallbacks == [] && recorder.replies == []
        && recorder.worker.recLength == 0 && recorder.worker.recBuffers == [[]]
    {
      if recorder == null {
        if !granted {
          return Err(PermissionDenied);
        }
        recorder := new R.Recorder(R.DefaultConfig);
      }
      res := Ok(());
    }

    /** `isRecording()`: `recorder && recorder.recording`, falsy while
        there is no recorder. */
    method IsRecording() returns (recording: bool)
      requires Valid()
      ensures recording <==> recorder != null && recorder.recording
    {
      recording := recorder != null && recorder.recording;
    }

    /** `startRecord()`: with a recorder, empty its buffers and start
        capturing; without one, nothing happens. */
    method StartRecord()
      requires Valid()
      modifies if recorder != null then {recorder, recorder.worker} else {}
      ensures Valid()
      ensures recorder != null ==>
        && recorder.recording
        && recorder.worker.recLength == 0
        && forall c :: 0 <= c < recorder.config.numChannels ==> recorder.worker.recBuffers[c] == []
      ensures recorder != null ==>
        recorder.getBufferCallbacks == old(recorder.getBufferCallbacks) && recorder.replies == old(recorder.replies)
    {
      if recorder != null {
        recorder.Clear();
        recorder.Record();
      }
    }

    /** `stopRecord()`: with a recorder, stop capturing. */
    method StopRecord()
      requires Valid()
      modifies if recorder != null then {recorder} else {}
      ensures Valid()
      ensures recorder != null ==> !recorder.recording
      ensures recorder != null ==>
        recorder.getBufferCallbacks == old(recorder.getBufferCallbacks) && recorder.replies == old(recorder.replies)
    {
      if recorder != null {
        recorder.Stop();
      }
    }

    /** `getRecordSampleRate()`: the context's own rate. */
    function GetRecordSampleRate(): (rate: int)
      requires Valid()
      reads Repr()
      ensures rate > 0 && rate == engine.sampleRate
    {
      engine.sampleRate
    }

    /** `generateRecordSamples()`: with a recorder, ask it for its buffers
        with `resolve` as the callback; without one the promise never
        settles and nothing happens. */
    method GenerateRecordSamples(resolve: Callback) returns (requested: bool)
      requires Valid()
      modifies if recorder != null then {recorder} else {}
      ensures Valid()
      ensures requested <==> recorder != null
      ensures requested ==>
        && recorder.getBufferCallbacks == old(recorder.getBufferCallbacks) + [resolve]
        && recorder.recording == old(recorder.recording)
        && |recorder.replies| == |old(recorder.replies)| + 1
        && recorder.replies[..|old(recorder.replies)|] == old(recorder.replies)
        && |recorder.replies[|recorder.replies| - 1].data| == recorder.config.numChannels
        && recorder.replies[|recorder.replies| - 1].data[0] == R.Flatten(recorder.worker.recBuffers[0])
    {
      if recorder == null {
        return false;
      }
      var _ := recorder.GetBuffer(Some(resolve));
      requested := true;
    }
  }
}
