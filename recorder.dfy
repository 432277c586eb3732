/** The PCM recorder bundled in BenzAMRRecorder.js (and, unchanged, in
    BenzAMRPlayer.js): a host object that forwards captured audio chunks to
    a worker while `recording` is set, and a worker that keeps each channel
    as a list of chunks and flattens it on request. */
module Recorder {
  import opened Pcm

  /** The number of samples in a list of chunks. */
  function TotalLength(chunks: seq<seq<Sample>>): nat
  {
    if chunks == [] then 0 else TotalLength(chunks[..|chunks| - 1]) + |chunks[|chunks| - 1]|
  }

  /** The chunks concatenated in arrival order. */
  function Flatten(chunks: seq<seq<Sample>>): seq<Sample>
  {
    if chunks == [] then [] else Flatten(chunks[..|chunks| - 1]) + chunks[|chunks| - 1]
  }

  lemma {:induction false} FlattenLength(chunks: seq<seq<Sample>>)
    ensures |Flatten(chunks)| == TotalLength(chunks)
  {
    if chunks != [] {
      FlattenLength(chunks[..|chunks| - 1]);
    }
  }

  lemma FlattenSnoc(chunks: seq<seq<Sample>>, i: nat)
    requires i < |chunks|
    ensures Flatten(chunks[..i + 1]) == Flatten(chunks[..i]) + chunks[i]
    ensures TotalLength(chunks[..i + 1]) == TotalLength(chunks[..i]) + |chunks[i]|
  {
    assert chunks[..i + 1][..i] == chunks[..i];
  }

  /** Sample k of chunk i sits at offset TotalLength(chunks[..i]) + k of
      the flattened channel. */
  lemma {:induction false} FlattenAt(chunks: seq<seq<Sample>>, i: nat, k: nat)
    requires i < |chunks| && k < |chunks[i]|
    ensures TotalLength(chunks[..i]) + k < |Flatten(chunks)|
    ensures Flatten(chunks)[TotalLength(chunks[..i]) + k] == chunks[i][k]
  {
    var n := |chunks| - 1;
    FlattenSnoc(chunks, n);
    assert chunks[..n + 1] == chunks;
    FlattenLength(chunks[..n]);
    if i < n {
      FlattenAt(chunks[..n], i, k);
      assert chunks[..n][..i] == chunks[..i];
    }
  }

  /** `result.set(chunk, offset)` for a chunk that fits: the chunk lands at
      `offset` and every other slot keeps its value. */
  method CopyChunk(a: array<Sample>, offset: nat, chunk: seq<Sample>)
    requires offset + |chunk| <= a.Length
    modifies a
    ensures a[..offset] == old(a[..offset])
    ensures a[offset..offset + |chunk|] == chunk
    ensures a[offset + |chunk|..] == old(a[offset + |chunk|..])
  {
    var k := 0;
    while k < |chunk|
      invariant 0 <= k <= |chunk|
      invariant a[..offset] == old(a[..offset])
      invariant a[offset..offset + k] == chunk[..k]
      invariant a[offset + k..] == old(a[offset + k..])
    {
      a[offset + k] := chunk[k];
      k := k + 1;
    }
  }

  /** Copying `chunk` right after a prefix that holds `flat` makes the
      longer prefix hold `flat + chunk`. */
  lemma MergeStep(a: seq<Sample>, offset: nat, chunk: seq<Sample>, flat: seq<Sample>)
    requires offset + |chunk| <= |a|
    requires a[..offset] == flat
    requires a[offset..offset + |chunk|] == chunk
    ensures a[..offset + |chunk|] == flat + chunk
  {
    assert a[..offset + |chunk|] == a[..offset] + a[offset..offset + |chunk|];
  }

  /** A sequence that is zero from `offset` on is its prefix followed by
      zeros. */
  lemma ZeroTail(a: seq<Sample>, offset: nat)
    requires offset <= |a|
    requires forall k :: offset <= k < |a| ==> a[k] == 0.0
    ensures a == a[..offset] + seq(|a| - offset, _ => 0.0)
  {
  }

  /** `mergeBuffers(recBuffers, recLength)`: copy the chunks one after the
      other into a fresh zero-filled Float32Array of recLength samples;
      `set` throws a RangeError (None here) once a chunk runs past the end. */
  method MergeBuffers(chunks: seq<seq<Sample>>, recLength: nat) returns (result: Option<array<Sample>>)
    ensures TotalLength(chunks) <= recLength <==> result.Some?
    ensures result.Some? ==>
      result.value.Length == recLength &&
      result.value[..] == Flatten(chunks) + seq(recLength - TotalLength(chunks), _ => 0.0)
  {
    var merged := new Sample[recLength](_ => 0.0);
    var offset := 0;
    var i := 0;
    while i < |chunks|
      invariant 0 <= i <= |chunks|
      invariant offset == TotalLength(chunks[..i]) <= recLength
      invariant merged[..offset] == Flatten(chunks[..i])
      invariant forall k :: offset <= k < recLength ==> merged[k] == 0.0
    {
      FlattenSnoc(chunks, i);
      if offset + |chunks[i]| > recLength {
        TotalLengthGrows(chunks, i + 1);
        return None;
      }
      var next := offset + |chunks[i]|;
      CopyChunk(merged, offset, chunks[i]);
      MergeStep(merged[..], offset, chunks[i], Flatten(chunks[..i]));
      forall k | next <= k < recLength
        ensures merged[k] == 0.0
      {
        assert merged[k] == merged[next..][k - next];
      }
      offset, i := next, i + 1;
    }
    assert chunks[..|chunks|] == chunks;
    FlattenLength(chunks);
    ZeroTail(merged[..], offset);
    result := Some(merged);
  }

  /** A prefix of the chunks is never longer than all of them. */
  lemma {:induction false} TotalLengthGrows(chunks: seq<seq<Sample>>, i: nat)
    requires i <= |chunks|
    ensures TotalLength(chunks[..i]) <= TotalLength(chunks)
  {
    if i < |chunks| {
      var n := |chunks| - 1;
      FlattenSnoc(chunks, n);
      assert chunks[..n + 1] == chunks;
      assert chunks[..n][..i] == chunks[..i];
      TotalLengthGrows(chunks[..n], i);
    } else {
      assert chunks[..i] == chunks;
    }
  }

  /** The worker's state: `recLength`, and per channel the list of chunks
      received so far (`recBuffers`). */
  class RecorderWorker {
    var recLength: nat
    var recBuffers: seq<seq<seq<Sample>>>
    var numChannels: nat

    /** Every channel holds exactly recLength samples. */
    ghost predicate Valid()
      reads this
    {
      && numChannels <= |recBuffers|
      && forall c :: 0 <= c < numChannels ==> TotalLength(recBuffers[c]) == recLength
    }

    /** The worker's variables before the `init` message. */
    constructor ()
      ensures Valid()
      ensures recLength == 0 && recBuffers == [] && numChannels == 0
    {
      recLength := 0;
      recBuffers := [];
      numChannels := 0;
    }

    /** `init(config)`: take the channel count and give each channel an
        empty chunk list. */
    method Init(channels: nat)
      modifies this
      ensures numChannels == channels && recLength == old(recLength)
      ensures |recBuffers| == if |old(recBuffers)| < channels then channels else |old(recBuffers)|
      ensures forall c :: 0 <= c < channels ==> recBuffers[c] == []
      ensures forall c :: channels <= c < |recBuffers| ==> recBuffers[c] == old(recBuffers[c])
      ensures recLength == 0 ==> Valid()
    {
      numChannels := channels;
      InitBuffers();
    }

    /** `initBuffers()`: reset channels 0 .. numChannels-1 to empty lists. */
    method InitBuffers()
      modifies this
      ensures numChannels == old(numChannels) && recLength == old(recLength)
      ensures |recBuffers| == if |old(recBuffers)| < numChannels then numChannels else |old(recBuffers)|
      ensures forall c :: 0 <= c < numChannels ==> recBuffers[c] == []
      ensures forall c :: numChannels <= c < |recBuffers| ==> recBuffers[c] == old(recBuffers[c])
    {
      var channel := 0;
      while channel < numChannels
        invariant 0 <= channel <= numChannels
        invariant numChannels == old(numChannels) && recLength == old(recLength)
        invariant |recBuffers| == if |old(recBuffers)| < channel then channel else |old(recBuffers)|
        invariant forall c :: 0 <= c < channel ==> recBuffers[c] == []
        invariant forall c :: channel <= c < |recBuffers| ==> recBuffers[c] == old(recBuffers[c])
      {
        if channel < |recBuffers| {
          recBuffers := recBuffers[channel := []];
        } else {
          recBuffers := recBuffers + [[]];
        }
        channel := channel + 1;
      }
    }

    /** `record(inputBuffer)`: append chunk c to channel c, and count the
        samples of channel 0. */
    method Record(inputBuffer: seq<seq<Sample>>)
      requires Valid() && numChannels >= 1
      requires |inputBuffer| == numChannels
      requires forall c :: 0 <= c < |inputBuffer| ==> |inputBuffer[c]| == |inputBuffer[0]|
      modifies this
      ensures Valid()
      ensures numChannels == old(numChannels) && |recBuffers| == |old(recBuffers)|
      ensures recLength == old(recLength) + |inputBuffer[0]|
      ensures forall c :: 0 <= c < numChannels ==> recBuffers[c] == old(recBuffers[c]) + [inputBuffer[c]]
      ensures forall c :: numChannels <= c < |recBuffers| ==> recBuffers[c] == old(recBuffers[c])
    {
      var channel := 0;
      while channel < numChannels
        invariant 0 <= channel <= numChannels
        invariant numChannels == old(numChannels) && recLength == old(recLength)
        invariant |recBuffers| == |old(recBuffers)|
        invariant forall c :: 0 <= c < channel ==> recBuffers[c] == old(recBuffers[c]) + [inputBuffer[c]]
        invariant forall c :: channel <= c < |recBuffers| ==> recBuffers[c] == old(recBuffers[c])
      {
        recBuffers := recBuffers[channel := recBuffers[channel] + [inputBuffer[channel]]];
        channel := channel + 1;
      }
      recLength := recLength + |inputBuffer[0]|;
      forall c | 0 <= c < numChannels
        ensures TotalLength(recBuffers[c]) == recLength
      {
        var chunks := recBuffers[c];
        FlattenSnoc(chunks, |chunks| - 1);
        assert chunks[..|chunks|] == chunks;
        assert chunks[..|chunks| - 1] == old(recBuffers[c]);
      }
    }

    /** `clear()`: forget every chunk. */
    method Clear()
      modifies this
      ensures Valid()
      ensures numChannels == old(numChannels) && recLength == 0
      ensures |recBuffers| == numChannels
      ensures forall c :: 0 <= c < numChannels ==> recBuffers[c] == []
    {
      recLength := 0;
      recBuffers := [];
      InitBuffers();
    }

    /** `getBuffer()`: one flat array of recLength samples per channel,
        holding that channel's chunks in arrival order. */
    method GetBuffer() returns (buffers: seq<seq<Sample>>)
      requires Valid()
      ensures |buffers| == numChannels
      ensures forall c :: 0 <= c < numChannels ==>
        |buffers[c]| == recLength && buffers[c] == Flatten(recBuffers[c])
    {
      buffers := [];
      var channel := 0;
      while channel < numChannels
        invariant 0 <= channel <= numChannels
        invariant |buffers| == channel
        invariant forall c :: 0 <= c < channel ==>
          |buffers[c]| == recLength && buffers[c] == Flatten(recBuffers[c])
      {
        var merged := MergeBuffers(recBuffers[channel], recLength);
        FlattenLength(recBuffers[channel]);
        assert recLength - TotalLength(recBuffers[channel]) == 0;
        buffers := buffers + [merged.value[..]];
        channel := channel + 1;
      }
    }
  }

  /** The recorder's configuration after `Object.assign(defaults, cfg)`. */
  datatype Config = Config(bufferLen: nat, numChannels: nat, mimeType: string, callback: Option<Callback>)

  const DefaultConfig: Config := Config(4096, 1, "audio/wav", None)

  /** A message the worker has posted and the host has not yet handled:
      the command it answers and its data. */
  datatype Reply = Reply(command: string, data: seq<seq<Sample>>)

  /** The host side of the recorder. */
  class Recorder {
    const config: Config
    const worker: RecorderWorker
    var recording: bool
    /** `callbacks.getBuffer`: pushed on request, popped on reply. */
    var getBufferCallbacks: seq<Callback>
    /** Worker messages not yet delivered to `worker.onmessage`, oldest first. */
    var replies: seq<Reply>

    ghost predicate Valid()
      reads this, worker
    {
      && worker.Valid()
      && worker.numChannels == config.numChannels
      && config.numChannels >= 1
    }

    /** `new Recorder(source, cfg)`: not recording, no callbacks, and the
        worker initialised with the configured channel count. */
    constructor (cfg: Config)
      requires cfg.numChannels >= 1
      ensures Valid() && fresh(worker)
      ensures config == cfg && !recording
      ensures getBufferCallbacks == [] && replies == []
      ensures worker.recLength == 0 && |worker.recBuffers| == cfg.numChannels
      ensures forall c :: 0 <= c < cfg.numChannels ==> worker.recBuffers[c] == []
    {
      var w := new RecorderWorker();
      w.Init(cfg.numChannels);
      config := cfg;
      worker := w;
      recording := false;
      getBufferCallbacks := [];
      replies := [];
    }

    /** `record()`. */
    method Record()
      modifies this
      ensures recording
      ensures getBufferCallbacks == old(getBufferCallbacks) && replies == old(replies)
    {
      recording := true;
    }

    /** `stop()`. */
    method Stop()
      modifies this
      ensures !recording
      ensures getBufferCallbacks == old(getBufferCallbacks) && replies == old(replies)
    {
      recording := false;
    }

    /** `clear()`: the worker empties every channel. */
    method Clear()
      requires Valid()
      modifies worker
      ensures Valid()
      ensures worker.recLength == 0 && |worker.recBuffers| == config.numChannels
      ensures forall c :: 0 <= c < config.numChannels ==> worker.recBuffers[c] == []
    {
      worker.Clear();
    }

    /** `node.onaudioprocess`: while recording, one chunk per channel goes
        to the worker; otherwise the chunk is dropped. */
    method OnAudioProcess(input: seq<seq<Sample>>) returns (forwarded: bool)
      requires Valid()
      requires |input| == config.numChannels
      requires forall c :: 0 <= c < |input| ==> |input[c]| == |input[0]|
      modifies worker
      ensures Valid()
      ensures forwarded == recording
      ensures !recording ==> unchanged(worker)
      ensures recording ==>
        && worker.recLength == old(worker.recLength) + |input[0]|
        && |worker.recBuffers| == |old(worker.recBuffers)|
        && forall c :: 0 <= c < config.numChannels ==>
             worker.recBuffers[c] == old(worker.recBuffers[c]) + [input[c]]
    {
      if !recording {
        return false;
      }
      var buffer := [];
      var channel := 0;
      while channel < config.numChannels
        invariant 0 <= channel <= config.numChannels
        invariant buffer == input[..channel]
      {
        buffer := buffer + [input[channel]];
        channel := channel + 1;
      }
      assert buffer == input;
      worker.Record(buffer);
      forwarded := true;
    }

    /** `getBuffer(cb)`: the callback (or the configured one) is pushed and
        the worker answers with the flattened channels. */
    method GetBuffer(cb: Option<Callback>) returns (res: Result<()>)
      requires Valid()
      modifies this
      ensures Valid()
      ensures cb.None? && config.callback.None? <==> res.Err?
      ensures res.Err? ==> res.error == CallbackNotSet
      ensures res.Err? ==> getBufferCallbacks == old(getBufferCallbacks) && replies == old(replies)
      ensures res.Ok? ==>
        getBufferCallbacks == old(getBufferCallbacks) + [if cb.Some? then cb.value else config.callback.value]
      ensures res.Ok? ==>
        && |replies| == |old(replies)| + 1
        && replies[..|old(replies)|] == old(replies)
        && replies[|old(replies)|].command == "getBuffer"
        && |replies[|old(replies)|].data| == config.numChannels
        && forall c :: 0 <= c < config.numChannels ==>
             replies[|old(replies)|].data[c] == Flatten(worker.recBuffers[c])
      ensures recording == old(recording)
    {
      var callback := if cb.Some? then cb else config.callback;
      if callback.None? {
        return Err(CallbackNotSet);
      }
      getBufferCallbacks := getBufferCallbacks + [callback.value];
      var buffers := worker.GetBuffer();
      replies := replies + [Reply("getBuffer", buffers)];
      res := Ok(());
    }

    /** `worker.onmessage` for the oldest pending reply: pop the most
        recently pushed callback of that command (LIFO) and hand it the
        data; with no callback left, nothing is called. */
    method DeliverReply() returns (cb: Option<Callback>, data: seq<seq<Sample>>)
      requires replies != []
      modifies this
      ensures data == old(replies[0].data) && replies == old(replies[1..])
      ensures old(getBufferCallbacks) == [] ==> cb.None? && getBufferCallbacks == []
      ensures old(getBufferCallbacks) != [] ==>
        && cb == Some(old(getBufferCallbacks[|getBufferCallbacks| - 1]))
        && getBufferCallbacks == old(getBufferCallbacks[..|getBufferCallbacks| - 1])
      ensures recording == old(recording)
    {
      var reply := replies[0];
      replies := replies[1..];
      data := reply.data;
      if getBufferCallbacks == [] {
        cb := None;
      } else {
        cb := Some(getBufferCallbacks[|getBufferCallbacks| - 1]);
        getBufferCallbacks := getBufferCallbacks[..|getBufferCallbacks| - 1];
      }
    }
  }

  /** Two overlapping getBuffer requests, with a chunk recorded between
      them: the first reply, which holds the samples as they were before the
      chunk, is handed to the SECOND callback, and the second reply to the
      first. */
  method OverlappingRequestsSwapReplies(r: Recorder, first: Callback, second: Callback, chunk: seq<Sample>)
    returns (firstCalled: Option<Callback>, firstData: seq<seq<Sample>>,
             secondCalled: Option<Callback>, secondData: seq<seq<Sample>>)
    requires r.Valid() && r.config.numChannels == 1 && r.recording
    requires r.getBufferCallbacks == [] && r.replies == []
    requires |chunk| > 0
    modifies r, r.worker
    ensures r.Valid() && r.getBufferCallbacks == [] && r.replies == []
    ensures firstCalled == Some(second) && secondCalled == Some(first)
    ensures firstData == [Flatten(old(r.worker.recBuffers[0]))]
    ensures secondData == [Flatten(old(r.worker.recBuffers[0])) + chunk]
  {
    ghost var before := r.worker.recBuffers[0];
    var _ := r.GetBuffer(Some(first));
    assert r.replies[0].data == [Flatten(before)];
    var _ := r.OnAudioProcess([chunk]);
    assert r.worker.recBuffers[0] == before + [chunk];
    var _ := r.GetBuffer(Some(second));
    assert r.getBufferCallbacks == [first, second];
    assert r.replies[1].data == [Flatten(before + [chunk])];
    firstCalled, firstData := r.DeliverReply();
    secondCalled, secondData := r.DeliverReply();
    FlattenAppend(before, chunk);
  }

  lemma FlattenAppend(chunks: seq<seq<Sample>>, chunk: seq<Sample>)
    ensures Flatten(chunks + [chunk]) == Flatten(chunks) + chunk
  {
    assert (chunks + [chunk])[..|chunks|] == chunks;
  }
}
