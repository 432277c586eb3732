/** The part of the host Web Audio engine the library relies on: buffer
    source nodes, the one-channel buffers they play, and the process-wide
    "current source" slot kept beside them. */
module WebAudio {
  import opened Pcm

  /** A one-channel AudioBuffer: its sample rate and its frames. */
  datatype AudioBuffer = AudioBuffer(sampleRate: int, channel: seq<Sample>)

  /** An AudioBufferSourceNode as the library leaves it: the buffer bound to
      it, its playbackRate, whether an `onended` handler is attached, whether
      `start()` was called and how many times `stop()` was called. */
  datatype SourceNode = SourceNode(
    buffer: Option<AudioBuffer>,
    playbackRate: real,
    endHandler: bool,
    started: bool,
    stops: nat)
  {
    /** Started and never stopped: the node is (or was, until its natural
        end) producing sound. */
    predicate Live() {
      started && stops == 0
    }
  }

  /** What `ctx.createBufferSource()` returns. */
  const NewSourceNode: SourceNode := SourceNode(None, 1.0, false, false, 0)

  /** The host engine: the context's own sample rate, and which
      `createBuffer(1, frames, rate)` calls it accepts (the others throw). */
  datatype Engine = Engine(sampleRate: int, accepts: (nat, int) -> bool)

  /** The duration in seconds of playing `b` at `playbackRate`. */
  function Seconds(b: AudioBuffer, playbackRate: real): real
    requires b.sampleRate > 0 && playbackRate > 0.0
  {
    |b.channel| as real / (b.sampleRate as real * playbackRate)
  }

  /** Every source node the engine has created, in creation order, and the
      module-level `curSourceNode` slot (an index into `nodes`, or null). */
  datatype Playback = Playback(nodes: seq<SourceNode>, current: Option<nat>)
  {
    /** The slot points at a created node, and at most one node is live:
        the one in the slot. */
    predicate Valid() {
      && (current.Some? ==> current.value < |nodes|)
      && forall i :: 0 <= i < |nodes| && nodes[i].Live() ==> current == Some(i)
    }

    /** No node is live. */
    predicate Silent() {
      forall i :: 0 <= i < |nodes| ==> !nodes[i].Live()
    }

    /** `stopPcm` of src/audioContext.js and of the recorder bundle: stop the
        current node, if any, and empty the slot. */
    function StopPcm(): (p: Playback)
      requires Valid()
      ensures p.Valid() && p.Silent() && p.current == None
      ensures |p.nodes| == |nodes|
      ensures current == None ==> p == this
      ensures current.Some? ==>
        p.nodes == nodes[current.value := nodes[current.value].(stops := nodes[current.value].stops + 1)]
    {
      match current
      case None => this
      case Some(i) => Playback(nodes[i := nodes[i].(stops := nodes[i].stops + 1)], None)
    }

    /** `stopPcm` of the player bundle: stop the current node, if any, but
        leave it in the slot. */
    function StopPcmKeepingSlot(): (p: Playback)
      requires Valid()
      ensures p.Valid() && p.Silent() && p.current == current
      ensures |p.nodes| == |nodes|
      ensures current == None ==> p == this
      ensures current.Some? ==>
        p.nodes == nodes[current.value := nodes[current.value].(stops := nodes[current.value].stops + 1)]
    {
      match current
      case None => this
      case Some(i) => Playback(nodes[i := nodes[i].(stops := nodes[i].stops + 1)], current)
    }

    /** `curSourceNode = ctx.createBufferSource()`: a new node fills the slot. */
    function Install(): (p: Playback)
      requires Silent()
      ensures p.Valid() && p.Silent()
      ensures p.nodes == nodes + [NewSourceNode] && p.current == Some(|nodes|)
    {
      Playback(nodes + [NewSourceNode], Some(|nodes|))
    }

    /** Bind `buffer` to the current node, set its playbackRate and `onended`
        handler, and start it. */
    function Start(buffer: AudioBuffer, playbackRate: real, endHandler: bool): (p: Playback)
      requires Valid() && current.Some?
      requires !nodes[current.value].started && nodes[current.value].stops == 0
      ensures p.Valid() && p.current == current && |p.nodes| == |nodes|
      ensures p.nodes[current.value] == SourceNode(Some(buffer), playbackRate, endHandler, true, 0)
      ensures forall i :: 0 <= i < |nodes| && i != current.value ==> p.nodes[i] == nodes[i]
    {
      var i := current.value;
      Playback(nodes[i := SourceNode(Some(buffer), playbackRate, endHandler, true, 0)], current)
    }
  }

  /** Stopping twice is stopping once when stopping clears the slot. */
  lemma StopPcmIdempotent(p: Playback)
    requires p.Valid()
    ensures p.StopPcm().StopPcm() == p.StopPcm()
  {
  }

  /** When stopping keeps the slot, a second stop stops the same node again. */
  lemma StopPcmKeepingSlotRestops(p: Playback)
    requires p.Valid() && p.current.Some?
    ensures var twice := p.StopPcmKeepingSlot().StopPcmKeepingSlot();
      && twice.current == p.current
      && twice.nodes[p.current.value].stops == p.nodes[p.current.value].stops + 2
  {
  }

  /** After playPcm's teardown, installation and start, the new node is the
      only live one, whatever was playing before. */
  lemma {:induction false} PlayLeavesOnlyNewNodeLive(p: Playback, buffer: AudioBuffer, playbackRate: real, endHandler: bool)
    requires p.Valid()
    ensures var q := p.StopPcm().Install().Start(buffer, playbackRate, endHandler);
      && q.current == Some(|p.nodes|)
      && q.nodes[|p.nodes|].Live()
      && forall i :: 0 <= i < |q.nodes| && i != |p.nodes| ==> !q.nodes[i].Live()
  {
  }
}
