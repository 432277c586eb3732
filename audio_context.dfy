/** src/audioContext.js: the module-level state shared by every
    BenzAMRRecorder (the audio context, the current source node slot and the
    single recorder) and the functions that manage it. Playback falls back
    to upsampled samples when the engine refuses a rate. */
module AudioContext {
  import opened Pcm
  import opened WebAudio
  import opened Upsampling
  import R = Recorder

  class Context {
    /** `ctx`. */
    const engine: Engine
    /** The source nodes `ctx` has created. */
    var nodes: seq<SourceNode>
    /** `curSourceNode`: an index into `nodes`, or null. */
    var curSourceNode: Option<nat>
    /** `recorder`: created at most once, by `initRecorder`. */
    var recorder: R.Recorder?

    function State(): Playback
      reads this
    {
      Playback(nodes, curSourceNode)
    }

    ghost function Repr(): set<object>
      reads this
    {
      {this} + if recorder != null then {recorder, recorder.worker} else {}
    }

    ghost predicate Valid()
      reads Repr()
    {
      && engine.sampleRate > 0
      && State().Valid()
      && (recorder != null ==> recorder.Valid() && recorder.config == R.DefaultConfig)
    }

    /** Module initialisation with a working AudioContext. */
    constructor (engine: Engine)
      requires engine.sampleRate > 0
      ensures Valid() && this.engine == engine
      ensures nodes == [] && curSourceNode == None && recorder == null
    {
      this.engine := engine;
      nodes := [];
      curSourceNode := None;
      recorder := null;
    }

    /** `stopPcm()`: stop the current node, if any, and clear the slot. */
    method StopPcm()
      requires Valid()
      modifies this
      ensures Valid() && recorder == old(recorder)
      ensures State() == old(State()).StopPcm()
    {
      if curSourceNode.Some? {
        var i := curSourceNode.value;
        nodes := nodes[i := nodes[i].(stops := nodes[i].stops + 1)];
        curSourceNode := None;
      }
    }

    /** `playPcm(samples, sampleRate)`: default the rate to 8000, stop the
        previous node, install a new one, and start it on the buffer of
        UpsamplingBuffer. No `onended` handler is attached: this playPcm has
        no such parameter. `samples` is None when it is null, and then the
        `samples.length` read throws. */
    method PlayPcm(samples: Option<seq<Sample>>, sampleRate: int) returns (res: Result<()>)
      requires Valid()
      modifies this
      ensures Valid() && recorder == old(recorder)
      ensures var installed := old(State()).StopPcm().Install();
        match samples
        case None => res == Err(NullSamples) && State() == installed
        case Some(s) =>
          match UpsamplingBuffer(engine, s, RateOrDefault(sampleRate))
          case Err(e) => res == Err(e) && State() == installed
          case Ok(buffer) => res == Ok(()) && State() == installed.Start(buffer, 1.0, false)
    {
      var rate := if sampleRate == 0 then 8000 else sampleRate;
      StopPcm();
      nodes := nodes + [NewSourceNode];
      curSourceNode := Some(|nodes| - 1);
      if samples.None? {
        return Err(NullSamples);
      }
      var buffer := CreateUpsamplingBuffer(engine, samples.value, rate);
      if buffer.Err? {
        return Err(buffer.error);
      }
      var i := curSourceNode.value;
      nodes := nodes[i := SourceNode(Some(buffer.value), 1.0, false, true, 0)];
      res := Ok(());
    }

    /** `initRecorder()`: create the recorder on the first successful call;
        afterwards resolve without creating another. */
    method InitRecorder(granted: bool) returns (res: Result<()>)
      requires Valid()
      modifies this
      ensures Valid() && State() == old(State())
      ensures old(recorder) != null ==> res == Ok(()) && recorder == old(recorder)
      ensures old(recorder) == null && !granted ==> res == Err(PermissionDenied) && recorder == null
      ensures old(recorder) == null && granted ==>
        && res == Ok(()) && recorder != null && fresh(recorder) && fresh(recorder.worker)
        && !recorder.recording && recorder.getBufferCallbacks == [] && recorder.replies == []
        && recorder.worker.recLength == 0 && recorder.worker.recBuffers == [[]]
    {
      if recorder == null {
        if !granted {
          return Err(PermissionDenied);
        }
        recorder := new R.Recorder(R.DefaultConfig);
      }
      res := Ok(());
    }

    /** `isRecording()`: reading `recorder.recording` throws while there is
        no recorder. */
    method IsRecording() returns (r: Result<bool>)
      requires Valid()
      ensures recorder == null <==> r == Err(NoRecorder)
      ensures recorder != null ==> r == Ok(recorder.recording)
    {
      if recorder == null {
        return Err(NoRecorder);
      }
      r := Ok(recorder.recording);
    }

    /** `startRecord()`: with a recorder, empty its buffers and start
        capturing; without one, nothing happens. */
    method StartRecord()
      requires Valid()
      modifies if recorder != null then {recorder, recorder.worker} else {}
      ensures Valid()
      ensures recorder != null ==>
        && recorder.recording
        && recorder.worker.recLength == 0
        && forall c :: 0 <= c < recorder.config.numChannels ==> recorder.worker.recBuffers[c] == []
      ensures recorder != null ==>
        recorder.getBufferCallbacks == old(recorder.getBufferCallbacks) && recorder.replies == old(recorder.replies)
    {
      if recorder != null {
        recorder.Clear();
        recorder.Record();
      }
    }

    /** `stopRecord()`: with a recorder, stop capturing. */
    method StopRecord()
      requires Valid()
      modifies if recorder != null then {recorder} else {}
      ensures Valid()
      ensures recorder != null ==> !recorder.recording
      ensures recorder != null ==>
        recorder.getBufferCallbacks == old(recorder.getBufferCallbacks) && recorder.replies == old(recorder.replies)
    {
      if recorder != null {
        recorder.Stop();
      }
    }

    /** `getRecordSampleRate()`: the context's own rate. */
    function GetRecordSampleRate(): (rate: int)
      requires Valid()
      reads Repr()
      ensures rate > 0 && rate == engine.sampleRate
    {
      engine.sampleRate
    }

    /** `generateRecordSamples()`: with a recorder, ask it for its buffers
        with `resolve` as the callback; without one the promise never
        settles and nothing happens. */
    method GenerateRecordSamples(resolve: Callback) returns (requested: bool)
      requires Valid()
      modifies if recorder != null then {recorder} else {}
      ensures Valid()
      ensures requested <==> recorder != null
      ensures requested ==>
        && recorder.getBufferCallbacks == old(recorder.getBufferCallbacks) + [resolve]
        && recorder.recording == old(recorder.recording)
        && |recorder.replies| == |old(recorder.replies)| + 1
        && recorder.replies[..|old(recorder.replies)|] == old(recorder.replies)
        && |recorder.replies[|recorder.replies| - 1].data| == recorder.config.numChannels
        && recorder.replies[|recorder.replies| - 1].data[0] == R.Flatten(recorder.worker.recBuffers[0])
    {
      if recorder == null {
        return false;
      }
      var _ := recorder.GetBuffer(Some(resolve));
      requested := true;
    }
  }
}
