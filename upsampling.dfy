/** `increaseSampleRate` and the fallback of the upsampling `playPcm`
    (src/audioContext.js, and the identical copy in the player bundle): when
    the engine refuses a low sample rate, every sample is repeated three
    times (below 11025 Hz) or twice, and the buffer is created at that
    multiple of the rate. */
module Upsampling {
  import opened Pcm
  import opened WebAudio

  /** Each sample of `s`, in order, repeated `m` times. */
  function Upsampled(s: seq<Sample>, m: nat): seq<Sample>
  {
    if s == [] then [] else Upsampled(s[..|s| - 1], m) + seq(m, _ => s[|s| - 1])
  }

  lemma MulMonotone(a: nat, b: nat, m: nat)
    requires a <= b
    ensures a * m <= b * m
  {
  }

  lemma MulSucc(i: nat, m: nat)
    ensures (i + 1) * m == i * m + m
  {
  }

  /** k = (k / m) * m + k % m, with k / m < n whenever k < n * m. */
  lemma DivBelow(k: nat, n: nat, m: nat)
    requires m > 0 && k < n * m
    ensures k / m < n && k % m < m
    ensures k == (k / m) * m + k % m
  {
    var q := k / m;
    assert k == q * m + k % m;
    if q >= n {
      MulMonotone(n, q, m);
    }
  }

  lemma {:induction false} UpsampledLength(s: seq<Sample>, m: nat)
    ensures |Upsampled(s, m)| == |s| * m
  {
    if s != [] {
      UpsampledLength(s[..|s| - 1], m);
      MulSucc(|s| - 1, m);
    }
  }

  /** Sample i lands in slots i*m .. i*m+m-1 of the output. */
  lemma {:induction false} UpsampledAt(s: seq<Sample>, m: nat, i: nat, j: nat)
    requires i < |s| && j < m
    ensures i * m + j < |Upsampled(s, m)|
    ensures Upsampled(s, m)[i * m + j] == s[i]
  {
    var n := |s| - 1;
    UpsampledLength(s[..n], m);
    UpsampledLength(s, m);
    MulSucc(n, m);
    if i < n {
      UpsampledAt(s[..n], m, i, j);
      MulSucc(i, m);
      MulMonotone(i + 1, n, m);
    }
  }

  /** Read the other way: output slot k holds input sample k / m, so each
      output slot is written by exactly one (i, j). */
  lemma UpsampledIndex(s: seq<Sample>, m: nat, k: nat)
    requires m > 0 && k < |s| * m
    ensures |Upsampled(s, m)| == |s| * m
    ensures Upsampled(s, m)[k] == s[k / m]
  {
    UpsampledLength(s, m);
    DivBelow(k, |s|, m);
    UpsampledAt(s, m, k / m, k % m);
  }

  /** One step of the outer loop of `increaseSampleRate`. */
  lemma UpsampledSnoc(s: seq<Sample>, m: nat, i: nat)
    requires i < |s|
    ensures Upsampled(s[..i + 1], m) == Upsampled(s[..i], m) + seq(m, _ => s[i])
  {
    assert s[..i + 1][..i] == s[..i];
  }

  /** The inner loop of `increaseSampleRate`: `count` copies of `x` from
      slot `from` on, and every other slot left alone. */
  method FillRun(a: array<Sample>, from: nat, count: nat, x: Sample)
    requires from + count <= a.Length
    modifies a
    ensures a[..from] == old(a[..from])
    ensures a[from..from + count] == seq(count, _ => x)
    ensures a[from + count..] == old(a[from + count..])
  {
    var j := 0;
    while j < count
      invariant 0 <= j <= count
      invariant a[..from] == old(a[..from])
      invariant a[from..from + j] == seq(j, _ => x)
      invariant a[from + j..] == old(a[from + j..])
    {
      a[from + j] := x;
      j := j + 1;
    }
  }

  /** `increaseSampleRate(samples, multiple)`: a fresh Float32Array of
      `samples.length * multiple` slots filled in two nested loops. */
  method IncreaseSampleRate(samples: seq<Sample>, multiple: nat) returns (newSamples: array<Sample>)
    ensures fresh(newSamples)
    ensures newSamples.Length == |samples| * multiple
    ensures newSamples[..] == Upsampled(samples, multiple)
  {
    var sampleLen := |samples|;
    newSamples := new Sample[sampleLen * multiple];
    var i, base := 0, 0;
    while i < sampleLen
      invariant 0 <= i <= sampleLen
      invariant base == i * multiple <= newSamples.Length
      invariant newSamples[..base] == Upsampled(samples[..i], multiple)
    {
      assert base + multiple == (i + 1) * multiple <= newSamples.Length by {
        MulSucc(i, multiple);
        MulMonotone(i + 1, sampleLen, multiple);
      }
      FillRun(newSamples, base, multiple, samples[i]);
      assert newSamples[..base + multiple] == newSamples[..base] + newSamples[base..base + multiple];
      UpsampledSnoc(samples, multiple, i);
      i, base := i + 1, base + multiple;
    }
    assert newSamples[..] == Upsampled(samples, multiple) by {
      assert samples[..sampleLen] == samples;
      assert newSamples[..] == newSamples[..base];
    }
  }

  /** The repetition factor of the fallback: 3 below 11025 Hz, else 2. */
  function FallbackMultiple(rate: int): (m: nat)
    ensures m == 3 <==> rate < 11025
    ensures m == 2 <==> rate >= 11025
  {
    if rate < 11025 then 3 else 2
  }

  /** The buffer the upsampling `playPcm` binds for `samples` at `rate`
      (already defaulted): the samples themselves at `rate` when the engine
      accepts it; otherwise the upsampled samples at the multiplied rate,
      or an exception when the engine refuses that as well. */
  function UpsamplingBuffer(engine: Engine, samples: seq<Sample>, rate: int): (r: Result<AudioBuffer>)
    ensures r.Ok? <==>
      engine.accepts(|samples|, rate) ||
      engine.accepts(|samples| * FallbackMultiple(rate), rate * FallbackMultiple(rate))
    ensures r.Err? ==> r.error == BufferRefused
    ensures engine.accepts(|samples|, rate) ==> r == Ok(AudioBuffer(rate, samples))
    ensures r.Ok? && !engine.accepts(|samples|, rate) ==>
      var m := FallbackMultiple(rate);
      && r.value.sampleRate == rate * m
      && |r.value.channel| == |samples| * m
      && forall k :: 0 <= k < |r.value.channel| ==> r.value.channel[k] == samples[k / m]
    ensures r.Ok? && rate > 0 ==>
      r.value.sampleRate > 0 && Seconds(r.value, 1.0) == |samples| as real / rate as real
  {
    if engine.accepts(|samples|, rate) then
      Ok(AudioBuffer(rate, samples))
    else
      var m := FallbackMultiple(rate);
      if engine.accepts(|samples| * m, rate * m) then
        var b := AudioBuffer(rate * m, Upsampled(samples, m));
        UpsampledEverywhere(samples, m);
        assert rate > 0 ==> rate * m > 0 && Seconds(b, 1.0) == |samples| as real / rate as real by {
          if rate > 0 {
            UpsampledKeepsDuration(b.channel, |samples|, m, rate);
          }
        }
        Ok(b)
      else
        Err(BufferRefused)
  }

  /** The `try { createBuffer } catch { ... }` block of the upsampling
      `playPcm`: the frames and rate of the buffer it creates, upsampling
      with `increaseSampleRate` on the fallback path. */
  method CreateUpsamplingBuffer(engine: Engine, samples: seq<Sample>, rate: int) returns (r: Result<AudioBuffer>)
    ensures r == UpsamplingBuffer(engine, samples, rate)
  {
    if engine.accepts(|samples|, rate) {
      return Ok(AudioBuffer(rate, samples));
    }
    if rate < 11025 {
      if !engine.accepts(|samples| * 3, rate * 3) {
        return Err(BufferRefused);
      }
      var upsampled := IncreaseSampleRate(samples, 3);
      r := Ok(AudioBuffer(rate * 3, upsampled[..]));
    } else {
      if !engine.accepts(|samples| * 2, rate * 2) {
        return Err(BufferRefused);
      }
      var upsampled := IncreaseSampleRate(samples, 2);
      r := Ok(AudioBuffer(rate * 2, upsampled[..]));
    }
  }

  /** Every output slot of the upsampler, read through UpsampledIndex. */
  lemma UpsampledEverywhere(samples: seq<Sample>, m: nat)
    requires m > 0
    ensures |Upsampled(samples, m)| == |samples| * m
    ensures forall k :: 0 <= k < |Upsampled(samples, m)| ==> Upsampled(samples, m)[k] == samples[k / m]
  {
    UpsampledLength(samples, m);
    forall k | 0 <= k < |samples| * m ensures Upsampled(samples, m)[k] == samples[k / m] {
      UpsampledIndex(samples, m, k);
    }
  }

  /** n*m frames at m times the rate last as long as n frames at the rate. */
  lemma UpsampledKeepsDuration(channel: seq<Sample>, n: nat, m: nat, rate: int)
    requires m > 0 && rate > 0 && |channel| == n * m
    ensures rate * m > 0
    ensures Seconds(AudioBuffer(rate * m, channel), 1.0) == n as real / rate as real
  {
    var nr, mr, rr := n as real, m as real, rate as real;
    assert (n * m) as real == nr * mr;
    assert (rate * m) as real == rr * mr;
    assert (nr * mr) / (rr * mr) == nr / rr;
  }
}
