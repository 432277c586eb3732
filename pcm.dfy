/** Values shared by every part of the model: PCM samples, AMR bytes, user
    callbacks, the errors the library throws or rejects with, and the AMR-NB
    codec, which is a black box here. */
module Pcm {

  datatype Option<+T> = None | Some(value: T)

  datatype Result<+T> = Ok(value: T) | Err(error: Error)

  /** One PCM sample (a Float32Array element). The model never inspects or
      computes with a sample; 0.0 appears only as the fill value of a freshly
      allocated Float32Array. */
  type Sample = real

  newtype Byte = b: int | 0 <= b < 256

  /** The identity of a user-supplied function (an event handler or a
      promise resolver). Invoking it is recorded, never interpreted. */
  type Callback = nat

  /** The exceptions and rejections of the library, one per distinct cause. */
  datatype Error =
    | AlreadyInitialized // 'AMR has been initialized. For a new AMR, please generate a new BenzAMRRecorder().'
    | NotInitialized     // 'Please init AMR first.'
    | DecodeFailed       // 'Failed to decode.'
    | FetchFailed        // 'Failed to fetch ' + url
    | PermissionDenied   // getUserMedia reported an error
    | CallbackNotSet     // 'Callback not set'
    | BufferRefused      // createBuffer threw for the fallback rate as well
    | NullSamples        // TypeError: the samples of a failed decode are null
    | NoRecorder         // TypeError: no recorder has been created yet

  /** The bundled AMR-NB codec: `encode(samples, sampleRate, mode)` and
      `decode(bytes)`, where decoding fails (null) on bytes it cannot read. */
  datatype AmrCodec = AmrCodec(
    encode: (seq<Sample>, int, int) -> seq<Byte>,
    decode: seq<Byte> -> Option<seq<Sample>>)

  /** A Blob: the bytes and the MIME type it is labelled with. */
  datatype Blob = Blob(bytes: seq<Byte>, mimeType: string)

  const DefaultSampleRate: int := 8000

  /** AMR-NB mode 7 (12.2 kbit/s), the mode every encoding call uses. */
  const AmrMode: int := 7

  /** `sampleRate || 8000`: a falsy rate (0, undefined, null, NaN, all
      written 0 here) becomes 8000 and any other rate is kept. */
  function RateOrDefault(sampleRate: int): (rate: int)
    ensures rate != 0
    ensures sampleRate != 0 ==> rate == sampleRate
    ensures sampleRate == 0 ==> rate == DefaultSampleRate
  {
    if sampleRate == 0 then DefaultSampleRate else sampleRate
  }

  /** `AMR.encode(samples, sampleRate || 8000, 7)`. */
  function EncodeAmr(codec: AmrCodec, samples: seq<Sample>, sampleRate: int): (amr: seq<Byte>)
    ensures sampleRate == 0 ==> amr == codec.encode(samples, 8000, 7)
    ensures sampleRate != 0 ==> amr == codec.encode(samples, sampleRate, 7)
  {
    codec.encode(samples, RateOrDefault(sampleRate), AmrMode)
  }

  /** `new Blob([data], {type: 'audio/amr'})`. */
  function AmrBlob(amr: seq<Byte>): (blob: Blob)
    ensures blob.bytes == amr && blob.mimeType == "audio/amr"
  {
    Blob(amr, "audio/amr")
  }

  /** The bundles' static `encodeAMR(samples, sampleRate)`: the encoded
      bytes, wrapped in an 'audio/amr' Blob. */
  function EncodeAmrBlob(codec: AmrCodec, samples: seq<Sample>, sampleRate: int): (blob: Blob)
    ensures blob.mimeType == "audio/amr"
    ensures blob.bytes == codec.encode(samples, RateOrDefault(sampleRate), AmrMode)
  {
    AmrBlob(EncodeAmr(codec, samples, sampleRate))
  }
}
