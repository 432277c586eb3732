/** The audio-context part of the player bundle (BenzAMRPlayer.js): the
    upsampling `playPcm` of src/audioContext.js, but a `stopPcm` that stops
    the current node without clearing the slot, and no recorder. */
module PlayerAudioContext {
  import opened Pcm
  import opened WebAudio
  import opened Upsampling

  class Context {
    /** `ctx`. */
    const engine: Engine
    /** The source nodes `ctx` has created. */
    var nodes: seq<SourceNode>
    /** `curSourceNode`: an index into `nodes`, or null. */
    var curSourceNode: Option<nat>

    function State(): Playback
      reads this
    {
      Playback(nodes, curSourceNode)
    }

    ghost predicate Valid()
      reads this
    {
      engine.sampleRate > 0 && State().Valid()
    }

    constructor (engine: Engine)
      requires engine.sampleRate > 0
      ensures Valid() && this.engine == engine
      ensures nodes == [] && curSourceNode == None
    {
      this.engine := engine;
      nodes := [];
      curSourceNode := None;
    }

    /** `stopPcm()`: stop the current node, if any; the slot keeps it. */
    method StopPcm()
      requires Valid()
      modifies this
      ensures Valid()
      ensures State() == old(State()).StopPcmKeepingSlot()
    {
      if curSourceNode.Some? {
        var i := curSourceNode.value;
        nodes := nodes[i := nodes[i].(stops := nodes[i].stops + 1)];
      }
    }

    /** `playPcm(samples, sampleRate)`: default the rate to 8000, stop the
        previous node (again, if it was stopped already), install a new one
        and start it on the buffer of UpsamplingBuffer. */
    method PlayPcm(samples: Option<seq<Sample>>, sampleRate: int) returns (res: Result<()>)
      requires Valid()
      modifies this
      ensures Valid()
      ensures var installed := old(State()).StopPcmKeepingSlot().Install();
        match samples
        case None => res == Err(NullSamples) && State() == installed
        case Some(s) =>
          match UpsamplingBuffer(engine, s, RateOrDefault(sampleRate))
          case Err(e) => res == Err(e) && State() == installed
          case Ok(buffer) => res == Ok(()) && State() == installed.Start(buffer, 1.0, false)
    {
      var rate := if sampleRate == 0 then 8000 else sampleRate;
      StopPcm();
      nodes := nodes + [NewSourceNode];
      curSourceNode := Some(|nodes| - 1);
      if samples.None? {
        return Err(NullSamples);
      }
      var buffer := CreateUpsamplingBuffer(engine, samples.value, rate);
      if buffer.Err? {
        return Err(buffer.error);
      }
      var i := curSourceNode.value;
      nodes := nodes[i := SourceNode(Some(buffer.value), 1.0, false, true, 0)];
      res := Ok(());
    }
  }
}
