/** The BenzAMRPlayer class of the player bundle (BenzAMRPlayer.js): a
    playback-only front end with no events, no guard against a second
    initialisation, playback always at the default 8000 Hz through the
    upsampling `playPcm` of that bundle, and a static `stop` whose slot is
    never cleared. */
module BundledAmrPlayer {
  import opened Pcm
  import opened WebAudio
  import opened Upsampling
  import P = PlayerAudioContext

  class BenzAMRPlayer {
    const audio: P.Context
    const codec: AmrCodec
    var isInit: bool
    var samples: Option<seq<Sample>>
    var blob: Option<Blob>

    constructor (audio: P.Context, codec: AmrCodec)
      requires audio.Valid()
      ensures this.audio == audio && this.codec == codec
      ensures !isInit && samples == Some([]) && blob == None
    {
      this.audio := audio;
      this.codec := codec;
      isInit := false;
      samples := Some([]);
      blob := None;
    }

    /** `initWithAMRArray(array)`: store the decoding, null included, mark
        the instance initialised, and reject when the decoding is null. */
    method InitWithAMRArray(bytes: seq<Byte>) returns (res: Result<()>)
      modifies this
      ensures isInit && samples == codec.decode(bytes) && blob == old(blob)
      ensures res.Ok? <==> codec.decode(bytes).Some?
      ensures res.Err? ==> res.error == DecodeFailed
    {
      samples := codec.decode(bytes);
      isInit := true;
      if samples.None? {
        return Err(DecodeFailed);
      }
      res := Ok(());
    }

    /** `initWithBlob(blob)`: keep the Blob, then initialise from its bytes. */
    method InitWithBlob(b: Blob) returns (res: Result<()>)
      modifies this
      ensures blob == Some(b) && isInit && samples == codec.decode(b.bytes)
      ensures res.Ok? <==> codec.decode(b.bytes).Some?
      ensures res.Err? ==> res.error == DecodeFailed
    {
      blob := Some(b);
      res := InitWithAMRArray(b.bytes);
    }

    /** `initWithUrl(url)`: fetch the URL as a Blob (None when the request
        fails) and initialise from it. */
    method InitWithUrl(fetched: Option<Blob>) returns (res: Result<()>)
      modifies this
      ensures fetched.None? ==>
        res == Err(FetchFailed) && isInit == old(isInit) && samples == old(samples) && blob == old(blob)
      ensures fetched.Some? ==>
        && blob == fetched && isInit && samples == codec.decode(fetched.value.bytes)
        && (res.Ok? <==> codec.decode(fetched.value.bytes).Some?)
        && (res.Err? ==> res.error == DecodeFailed)
    {
      if fetched.None? {
        return Err(FetchFailed);
      }
      res := InitWithBlob(fetched.value);
    }

    /** `play()`: refuse an uninitialised instance; otherwise play the
        samples at the default rate. */
    method Play() returns (res: Result<()>)
      requires audio.Valid()
      modifies audio
      ensures audio.Valid()
      ensures !isInit ==> res == Err(NotInitialized) && audio.State() == old(audio.State())
      ensures isInit ==>
        var installed := old(audio.State()).StopPcmKeepingSlot().Install();
        match samples
        case None => res == Err(NullSamples) && audio.State() == installed
        case Some(s) =>
          match UpsamplingBuffer(audio.engine, s, DefaultSampleRate)
          case Err(e) => res == Err(e) && audio.State() == installed
          case Ok(buffer) =>
            && res == Ok(()) && audio.State() == installed.Start(buffer, 1.0, false)
            && Seconds(buffer, 1.0) == |s| as real / DefaultSampleRate as real
    {
      if !isInit {
        return Err(NotInitialized);
      }
      res := audio.PlayPcm(samples, 0);
    }
  }

  /** The static `BenzAMRPlayer.stop()`. */
  method Stop(audio: P.Context)
    requires audio.Valid()
    modifies audio
    ensures audio.Valid()
    ensures audio.State() == old(audio.State()).StopPcmKeepingSlot()
  {
    audio.StopPcm();
  }

  /** `stop()` followed by `play()` stops the node in the slot a second
      time, because the player's `stopPcm` never empties the slot. */
  method StopThenPlayStopsTwice(p: BenzAMRPlayer) returns (res: Result<()>)
    requires p.audio.Valid() && p.isInit && p.audio.curSourceNode.Some?
    modifies p.audio
    ensures var i := old(p.audio.curSourceNode.value);
      && i < |p.audio.nodes|
      && p.audio.nodes[i].stops == old(p.audio.nodes[i].stops) + 2
  {
    Stop(p.audio);
    res := p.Play();
  }
}
