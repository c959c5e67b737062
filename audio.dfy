/** The capture-side audio path of the desktop shell: the shared stream state that the audio
    callback updates once per batch (recording buffer, monitoring and processor gating), the
    channel downmix, and the linear-interpolation resampler that turns a finished recording
    into 16 kHz mono for the speech-to-text engine.

    Samples are real numbers: 32- and 64-bit float rounding is not modelled. Lengths, indices
    and the recording cap are exact integers. */
module Audio {
  import opened Common

  /** Maximum recording length in samples: ten minutes of 48 kHz stereo. */
  const MaxRecordingSamples: nat := 48000 * 60 * 10 * 2

  /** Sample rate expected by the speech-to-text engine. */
  const TargetRate: nat := 16000

  /** Rate a speech detector is created at when the stream has not reported one yet. */
  const FallbackDetectorRate: nat := 48000

  function Min(a: nat, b: nat): nat { if a <= b then a else b }

  // ---------------------------------------------------------------------------------------
  // Processors. Their analysis and the events they emit are not part of this model; what is
  // modelled is which batches each one is handed, in order.
  // ---------------------------------------------------------------------------------------

  /** The waveform/visualisation processor, known by the mono batches it has processed. */
  datatype VisualizationProcessor = VisualizationProcessor(fed: seq<seq<real>>)
  {
    /** One `process` call on a mono batch. */
    function Process(mono: seq<real>): VisualizationProcessor
    {
      VisualizationProcessor(fed + [mono])
    }
  }

  /** The speech detector, created for one sample rate, known by the mono batches it has processed. */
  datatype SpeechDetector = SpeechDetector(sampleRate: nat, fed: seq<seq<real>>)
  {
    /** One `process` call on a mono batch. */
    function Process(mono: seq<real>): SpeechDetector
    {
      this.(fed := fed + [mono])
    }
  }

  /** A finished recording before conversion: interleaved samples, their rate and channel count. */
  datatype RawRecordedAudio = RawRecordedAudio(samples: seq<real>, sampleRate: nat, channels: nat)

  /** The value held by an AudioStreamState object, field for field. */
  datatype StreamSnapshot = StreamSnapshot(
    recordingSamples: seq<real>,
    sampleRate: nat,
    channels: nat,
    isRecording: bool,
    isMonitoring: bool,
    visualizationProcessor: Option<VisualizationProcessor>,
    isProcessingEnabled: bool,
    speechProcessor: Option<SpeechDetector>,
    streamActive: bool,
    sourceType: AudioSourceType)

  // ---------------------------------------------------------------------------------------
  // Recording buffer
  // ---------------------------------------------------------------------------------------

  /** Room left in the recording buffer: the cap minus what is recorded, stopping at zero. */
  function RemainingCapacity(recorded: nat): (room: nat)
    ensures recorded <= MaxRecordingSamples ==> recorded + room == MaxRecordingSamples
    ensures recorded >= MaxRecordingSamples ==> room == 0
  {
    if recorded < MaxRecordingSamples then MaxRecordingSamples - recorded else 0
  }

  /** The recording buffer after one batch is recorded. */
  function AppendRecording(recorded: seq<real>, batch: seq<real>): (r: seq<real>)
    ensures |recorded| <= MaxRecordingSamples ==> |r| <= MaxRecordingSamples
    ensures |r| == |recorded| + Min(|batch|, RemainingCapacity(|recorded|))
    ensures r[..|recorded|] == recorded
    ensures r[|recorded|..] == batch[..|r| - |recorded|]
  {
    var remaining := RemainingCapacity(|recorded|);
    if remaining > 0 then recorded + batch[..Min(|batch|, remaining)] else recorded
  }

  /** All samples of `batches`, in delivery order. */
  function Concat(batches: seq<seq<real>>): seq<real>
    decreases |batches|
  {
    if |batches| == 0 then [] else batches[0] + Concat(batches[1..])
  }

  /** The recording buffer after each of `batches` has been recorded in turn. */
  function RecordAll(recorded: seq<real>, batches: seq<seq<real>>): seq<real>
    decreases |batches|
  {
    if |batches| == 0 then recorded else RecordAll(AppendRecording(recorded, batches[0]), batches[1..])
  }

  /** However many batches arrive, the buffer holds exactly the first samples ever delivered, up
      to the cap: nothing is evicted, overwritten or reordered, and nothing is dropped while
      there is room. */
  lemma {:induction false} RecordAllKeepsFirstSamples(recorded: seq<real>, batches: seq<seq<real>>)
    requires |recorded| <= MaxRecordingSamples
    ensures |RecordAll(recorded, batches)| == Min(|recorded| + |Concat(batches)|, MaxRecordingSamples)
    ensures RecordAll(recorded, batches) == (recorded + Concat(batches))[..|RecordAll(recorded, batches)|]
    decreases |batches|
  {
    if |batches| > 0 {
      var b, rest := batches[0], Concat(batches[1..]);
      var next := AppendRecording(recorded, b);
      var r := RecordAll(next, batches[1..]);
      assert RecordAll(recorded, batches) == r;
      assert Concat(batches) == b + rest;
      if |next| < MaxRecordingSamples {
        RecordAllKeepsFirstSamples(next, batches[1..]);
        RecordStepFits(recorded, b, rest, r);
      } else {
        RecordAllFull(next, batches[1..]);
        RecordStepFull(recorded, b, rest);
      }
    }
  }

  /** A batch that fits whole: what is recorded after it and `rest` is what would be recorded
      from the earlier buffer and the batch followed by `rest`. */
  lemma RecordStepFits(recorded: seq<real>, batch: seq<real>, rest: seq<real>, r: seq<real>)
    requires |recorded| <= MaxRecordingSamples
    requires |AppendRecording(recorded, batch)| < MaxRecordingSamples
    requires |r| == Min(|AppendRecording(recorded, batch)| + |rest|, MaxRecordingSamples)
    requires r == (AppendRecording(recorded, batch) + rest)[..|r|]
    ensures |r| == Min(|recorded| + |batch + rest|, MaxRecordingSamples)
    ensures r == (recorded + (batch + rest))[..|r|]
  {
    assert AppendRecording(recorded, batch) == recorded + batch;
    assert recorded + batch + rest == recorded + (batch + rest);
  }

  /** A batch that fills the buffer: the buffer is then the first samples of everything
      delivered from the earlier buffer on. */
  lemma RecordStepFull(recorded: seq<real>, batch: seq<real>, rest: seq<real>)
    requires |recorded| <= MaxRecordingSamples
    requires |AppendRecording(recorded, batch)| >= MaxRecordingSamples
    ensures |AppendRecording(recorded, batch)| == MaxRecordingSamples
    ensures |AppendRecording(recorded, batch)| == Min(|recorded| + |batch + rest|, MaxRecordingSamples)
    ensures AppendRecording(recorded, batch) == (recorded + (batch + rest))[..|AppendRecording(recorded, batch)|]
  {
    AppendRecordingPrefix(recorded, batch, rest);
  }

  /** A full buffer takes nothing more. */
  lemma {:induction false} RecordAllFull(recorded: seq<real>, batches: seq<seq<real>>)
    requires |recorded| == MaxRecordingSamples
    ensures RecordAll(recorded, batches) == recorded
    decreases |batches|
  {
    if |batches| > 0 {
      assert AppendRecording(recorded, batches[0]) == recorded;
      RecordAllFull(recorded, batches[1..]);
    }
  }

  /** One batch recorded is a prefix of everything delivered from then on. */
  lemma AppendRecordingPrefix(recorded: seq<real>, batch: seq<real>, later: seq<real>)
    ensures AppendRecording(recorded, batch) == (recorded + (batch + later))[..|AppendRecording(recorded, batch)|]
  {
    var r := AppendRecording(recorded, batch);
    var n := |r| - |recorded|;
    assert r == r[..|recorded|] + r[|recorded|..];
    assert (recorded + (batch + later))[..|r|] == recorded + batch[..n];
  }

  // ---------------------------------------------------------------------------------------
  // Downmix
  // ---------------------------------------------------------------------------------------

  /** Sum of a batch of samples. */
  function Sum(s: seq<real>): real
    decreases |s|
  {
    if |s| == 0 then 0.0 else s[0] + Sum(s[1..])
  }

  /** Interleaved samples to mono: each chunk of `channels` consecutive samples (the last one
      possibly shorter) becomes its sum divided by `channels`. */
  function ConvertToMono(samples: seq<real>, channels: nat): seq<real>
    requires channels > 0
    decreases |samples|
  {
    if |samples| == 0 then []
    else
      var n := Min(|samples|, channels);
      [Sum(samples[..n]) / channels as real] + ConvertToMono(samples[n..], channels)
  }

  /** There is one output per chunk: `len <= outputs * channels < len + channels`. */
  lemma ConvertToMonoChunkCount(samples: seq<real>, channels: nat)
    requires channels > 0
    ensures |samples| <= |ConvertToMono(samples, channels)| * channels
    ensures |ConvertToMono(samples, channels)| == 0 || (|ConvertToMono(samples, channels)| - 1) * channels < |samples|
  {
    var m := |ConvertToMono(samples, channels)|;
    ConvertToMonoCover(samples, channels);
    ChunkStart(m, channels);
    if m > 0 {
      ChunkStart(m - 1, channels);
    }
  }

  /** The chunks cover the samples, and the last one is not empty. */
  lemma {:induction false} ConvertToMonoCover(samples: seq<real>, channels: nat)
    requires channels > 0
    ensures |samples| <= ChunkStartOf(|ConvertToMono(samples, channels)|, channels)
    ensures |ConvertToMono(samples, channels)| == 0 || ChunkStartOf(|ConvertToMono(samples, channels)| - 1, channels) < |samples|
    decreases |samples|
  {
    if |samples| > 0 {
      var n := Min(|samples|, channels);
      var m := |ConvertToMono(samples[n..], channels)|;
      ConvertToMonoCover(samples[n..], channels);
      assert |ConvertToMono(samples, channels)| == m + 1;
      if m > 0 {
        assert ChunkStartOf(m, channels) == ChunkStartOf(m - 1, channels) + channels;
      }
    }
  }

  /** `a * c` grows with `a` when `c` is not negative. */
  lemma MulMonotone(a: int, b: int, c: int)
    requires a <= b && c >= 0
    ensures a * c <= b * c
  {
    assert b * c - a * c == (b - a) * c;
  }

  /** A count `m` with `(m - 1) * c < len <= m * c` is the ceiling of `len / c`. */
  lemma CeilingDivision(len: nat, c: nat, m: nat)
    requires c > 0
    requires len <= m * c
    requires m == 0 || (m - 1) * c < len
    ensures m == (len + c - 1) / c
  {
    var q := (len + c - 1) / c;
    var r := (len + c - 1) % c;
    assert len + c - 1 == q * c + r && 0 <= r < c;
    if m > q {
      MulMonotone(q, m - 1, c);
      assert false;
    } else if m < q {
      MulMonotone(m, q - 1, c);
      assert false;
    }
  }

  /** The downmix has `ceil(len / channels)` outputs. */
  lemma ConvertToMonoLength(samples: seq<real>, channels: nat)
    requires channels > 0
    ensures |ConvertToMono(samples, channels)| == (|samples| + channels - 1) / channels
  {
    ConvertToMonoChunkCount(samples, channels);
    CeilingDivision(|samples|, channels, |ConvertToMono(samples, channels)|);
  }

  /** After its first chunk, the downmix continues with the downmix of the rest. */
  lemma ConvertToMonoTail(samples: seq<real>, channels: nat)
    requires channels > 0
    ensures |samples| <= channels ==> |ConvertToMono(samples, channels)| == (if |samples| == 0 then 0 else 1)
    ensures |samples| > channels ==>
      ConvertToMono(samples, channels) == [Sum(samples[..channels]) / channels as real] + ConvertToMono(samples[channels..], channels)
  {
    if 0 < |samples| <= channels {
      assert samples[|samples|..] == [];
    }
  }

  /** The `k`-th output of the downmix is the average over the `k`-th chunk, including a short
      trailing chunk (whose sum is still divided by the full channel count). */
  lemma ConvertToMonoAt(samples: seq<real>, channels: nat, k: nat)
    requires channels > 0
    requires k < |ConvertToMono(samples, channels)|
    ensures k * channels < |samples|
    ensures ConvertToMono(samples, channels)[k]
         == Sum(samples[k * channels .. Min((k + 1) * channels, |samples|)]) / channels as real
  {
    ChunkStart(k, channels);
    ConvertToMonoChunk(samples, channels, k);
    assert (k + 1) * channels == k * channels + channels;
  }

  /** `ConvertToMonoAt`, with the chunk's start written as a sum. */
  lemma ConvertToMonoChunk(samples: seq<real>, channels: nat, k: nat)
    requires channels > 0
    requires k < |ConvertToMono(samples, channels)|
    ensures ChunkStartOf(k, channels) < |samples|
    ensures ConvertToMono(samples, channels)[k]
         == Sum(samples[ChunkStartOf(k, channels) .. Min(ChunkStartOf(k, channels) + channels, |samples|)]) / channels as real
  {
    var lo := ChunkStartOf(k, channels);
    ConvertToMonoDrop(samples, channels, k);
    ConvertToMonoFirst(samples[lo..], channels);
    ChunkOfSuffix(samples, lo, channels);
  }

  /** The first chunk of a suffix is the chunk of the whole starting there. */
  lemma ChunkOfSuffix(samples: seq<real>, lo: nat, channels: nat)
    requires lo < |samples|
    ensures samples[lo..][0 .. Min(channels, |samples[lo..]|)] == samples[lo .. Min(lo + channels, |samples|)]
  {
    var m := Min(channels, |samples[lo..]|);
    assert lo + m == Min(lo + channels, |samples|);
    SliceOfTail(samples, lo, 0, m);
  }

  /** Start of chunk `k`: `k` chunks of `channels` samples. */
  function ChunkStartOf(k: nat, channels: nat): nat
  {
    if k == 0 then 0 else ChunkStartOf(k - 1, channels) + channels
  }

  /** The start of chunk `k` is `k * channels`. */
  lemma {:induction false} ChunkStart(k: nat, channels: nat)
    ensures ChunkStartOf(k, channels) == k * channels
  {
    if k > 0 {
      ChunkStart(k - 1, channels);
      assert k * channels == (k - 1) * channels + channels;
    }
  }

  /** Output `k` of the downmix is the first output of the downmix of the samples from chunk `k` on. */
  lemma ConvertToMonoDrop(samples: seq<real>, channels: nat, k: nat)
    requires channels > 0
    requires k < |ConvertToMono(samples, channels)|
    ensures ChunkStartOf(k, channels) < |samples|
    ensures 0 < |ConvertToMono(samples[ChunkStartOf(k, channels)..], channels)|
    ensures ConvertToMono(samples, channels)[k] == ConvertToMono(samples[ChunkStartOf(k, channels)..], channels)[0]
  {
    ConvertToMonoSkip(samples, channels, k);
    SkipChunksIsSuffix(samples, channels, k);
  }

  /** `samples` with its first `k` chunks of `channels` samples dropped, stopping early at a
      chunk that does not fit. */
  function SkipChunks(samples: seq<real>, channels: nat, k: nat): seq<real>
    decreases k
  {
    if k == 0 || |samples| <= channels then samples else SkipChunks(samples[channels..], channels, k - 1)
  }

  /** Whether the first `k` chunks can be dropped with samples left over after each. */
  predicate ChunksFit(samples: seq<real>, channels: nat, k: nat)
    decreases k
  {
    k == 0 || (|samples| > channels && ChunksFit(samples[channels..], channels, k - 1))
  }

  /** The chunks before output `k` all fit, and output `k` is the first output of what is left
      after dropping them. */
  lemma {:induction false} ConvertToMonoSkip(samples: seq<real>, channels: nat, k: nat)
    requires channels > 0
    requires k < |ConvertToMono(samples, channels)|
    ensures ChunksFit(samples, channels, k)
    ensures 0 < |ConvertToMono(SkipChunks(samples, channels, k), channels)|
    ensures ConvertToMono(samples, channels)[k] == ConvertToMono(SkipChunks(samples, channels, k), channels)[0]
    decreases k
  {
    if k > 0 {
      ConvertToMonoShift(samples, channels, k);
      ConvertToMonoSkip(samples[channels..], channels, k - 1);
    }
  }

  /** Dropping `k` chunks that fit leaves the suffix from chunk `k` on. */
  lemma {:induction false} SkipChunksIsSuffix(samples: seq<real>, channels: nat, k: nat)
    requires ChunksFit(samples, channels, k)
    ensures ChunkStartOf(k, channels) <= |samples|
    ensures SkipChunks(samples, channels, k) == samples[ChunkStartOf(k, channels)..]
    decreases k
  {
    if k == 0 {
      assert samples[0..] == samples;
    } else {
      var tail := samples[channels..];
      SkipChunksIsSuffix(tail, channels, k - 1);
      SuffixOfSuffix(samples, channels, ChunkStartOf(k - 1, channels));
    }
  }

  /** The first output of the downmix is the average over the first chunk. */
  lemma ConvertToMonoFirst(samples: seq<real>, channels: nat)
    requires channels > 0 && 0 < |ConvertToMono(samples, channels)|
    ensures ConvertToMono(samples, channels)[0] == Sum(samples[0 .. Min(channels, |samples|)]) / channels as real
  {
    assert samples[0 .. Min(channels, |samples|)] == samples[..Min(|samples|, channels)];
  }

  /** Past the first chunk, output `k` of the downmix is output `k - 1` of the tail's. */
  lemma ConvertToMonoShift(samples: seq<real>, channels: nat, k: nat)
    requires channels > 0 && 0 < k < |ConvertToMono(samples, channels)|
    ensures |samples| > channels
    ensures k - 1 < |ConvertToMono(samples[channels..], channels)|
    ensures ConvertToMono(samples, channels)[k] == ConvertToMono(samples[channels..], channels)[k - 1]
  {
    ConvertToMonoTail(samples, channels);
  }

  /** A suffix of a suffix is a suffix of the whole. */
  lemma SuffixOfSuffix(s: seq<real>, d: nat, e: nat)
    requires d <= |s| && e <= |s| - d
    ensures s[d..][e..] == s[d + e..]
  {
  }

  /** A slice of a suffix is a shifted slice of the whole. */
  lemma SliceOfTail(s: seq<real>, d: nat, lo: nat, hi: nat)
    requires d <= |s| && lo <= hi <= |s| - d
    ensures s[d..][lo..hi] == s[d + lo .. d + hi]
  {
  }

  /** With one channel the downmix changes nothing. */
  lemma {:induction false} ConvertToMonoSingleChannel(samples: seq<real>)
    ensures ConvertToMono(samples, 1) == samples
    decreases |samples|
  {
    if |samples| > 0 {
      ConvertToMonoSingleChannel(samples[1..]);
      assert Sum(samples[..1]) == samples[0] by {
        assert samples[..1][1..] == [];
      }
    }
  }

  /** Stereo with identical left and right keeps the amplitude of either channel. */
  lemma ConvertToMonoEqualStereo(samples: seq<real>, k: nat)
    requires 2 * k + 1 < |samples|
    requires samples[2 * k] == samples[2 * k + 1]
    ensures k < |ConvertToMono(samples, 2)|
    ensures ConvertToMono(samples, 2)[k] == samples[2 * k]
  {
    ConvertToMonoChunkCount(samples, 2);
    ConvertToMonoAt(samples, 2, k);
    var chunk := samples[2 * k .. 2 * k + 2];
    assert chunk == [samples[2 * k], samples[2 * k + 1]];
    assert Min((k + 1) * 2, |samples|) == 2 * k + 2;
    SumPair(samples[2 * k], samples[2 * k + 1]);
  }

  lemma SumPair(a: real, b: real)
    ensures Sum([a, b]) == a + b
  {
    assert [a, b][1..] == [b];
    assert [b][1..] == [];
    assert Sum([b]) == b + Sum([]);
  }

  /** What the callback and the recording conversion hand on: a downmix when there is more
      than one channel, otherwise the samples as they are. */
  function MonoOf(samples: seq<real>, channels: nat): seq<real>
  {
    if channels > 1 then ConvertToMono(samples, channels) else samples
  }

  // ---------------------------------------------------------------------------------------
  // Resampler
  // ---------------------------------------------------------------------------------------

  /** Source samples per output sample. */
  function Ratio(sourceRate: nat): real
  {
    sourceRate as real / TargetRate as real
  }

  /** Smallest integer not below `x`. */
  function Ceil(x: real): int
  {
    -((-x).Floor)
  }

  /** Number of output samples for `len` source samples: the ceiling of `len / ratio`. */
  function ResampledLength(len: nat, sourceRate: nat): nat
    requires sourceRate > 0
  {
    var n := Ceil(len as real / Ratio(sourceRate));
    if n < 0 then 0 else n
  }

  /** Fractional source position of output sample `i`. */
  function SourcePosition(i: nat, sourceRate: nat): real
  {
    i as real * Ratio(sourceRate)
  }

  /** Source sample at or before output sample `i`: the floor of its position. */
  function SourceIndex(i: nat, sourceRate: nat): nat
  {
    var f := SourcePosition(i, sourceRate).Floor;
    if f < 0 then 0 else f
  }

  /** How far output sample `i` lies past its source sample. */
  function Fraction(i: nat, sourceRate: nat): real
  {
    SourcePosition(i, sourceRate) - SourceIndex(i, sourceRate) as real
  }

  /** Output sample `i`: linear interpolation between the source samples around its position,
      the last source sample when there is no next one, and zero past the end. */
  function InterpolatedSample(samples: seq<real>, i: nat, sourceRate: nat): real
  {
    var idx := SourceIndex(i, sourceRate);
    var frac := Fraction(i, sourceRate);
    if idx + 1 < |samples| then samples[idx] * (1.0 - frac) + samples[idx + 1] * frac
    else if idx < |samples| then samples[idx]
    else 0.0
  }

  /** What resampling to 16 kHz produces. */
  function Resampled(samples: seq<real>, sourceRate: nat): seq<real>
    requires sourceRate > 0 || |samples| == 0
  {
    if sourceRate == TargetRate then samples
    else if |samples| == 0 then []
    else seq(ResampledLength(|samples|, sourceRate), i requires 0 <= i => InterpolatedSample(samples, i, sourceRate))
  }

  /** Resample with linear interpolation. It never fails; the Result mirrors the source's
      signature. A source rate of zero is accepted for an empty input, which returns before
      the rate is used; with samples, the source's length computation divides by zero. */
  method ResampleTo16kHz(samples: seq<real>, sourceRate: nat) returns (r: Result<seq<real>, string>)
    requires sourceRate > 0 || |samples| == 0
    ensures r == Ok(Resampled(samples, sourceRate))
  {
    if sourceRate == TargetRate {
      return Ok(samples);
    }
    if |samples| == 0 {
      return Ok([]);
    }
    var ratio := sourceRate as real / TargetRate as real;
    var outputLen := Ceil(|samples| as real / ratio);
    assert outputLen == ResampledLength(|samples|, sourceRate) by {
      assert |samples| as real / ratio > 0.0;
    }
    var output: seq<real> := [];
    for i := 0 to outputLen
      invariant |output| == i
      invariant forall j :: 0 <= j < i ==> output[j] == InterpolatedSample(samples, j, sourceRate)
    {
      var srcPos := i as real * ratio;
      var srcIdx := srcPos.Floor;
      var frac := srcPos - srcIdx as real;
      LoopPosition(i, sourceRate, ratio);
      var sample: real;
      if srcIdx + 1 < |samples| {
        sample := samples[srcIdx] * (1.0 - frac) + samples[srcIdx + 1] * frac;
      } else if srcIdx < |samples| {
        sample := samples[srcIdx];
      } else {
        sample := 0.0;
      }
      output := output + [sample];
    }
    assert output == Resampled(samples, sourceRate);
    return Ok(output);
  }

  /** The loop's position arithmetic is the specification's source index and fraction. */
  lemma LoopPosition(i: nat, sourceRate: nat, ratio: real)
    requires ratio == sourceRate as real / TargetRate as real
    ensures (i as real * ratio).Floor == SourceIndex(i, sourceRate)
    ensures i as real * ratio - (i as real * ratio).Floor as real == Fraction(i, sourceRate)
  {
    assert i as real * ratio == SourcePosition(i, sourceRate);
    MulNonnegReal(i as real, ratio);
  }

  /** The output length is the integer ceiling of `len * 16000 / sourceRate`: enough output
      samples to cover the input, and not one more. */
  lemma ResampledLengthIsCeiling(len: nat, sourceRate: nat)
    requires sourceRate > 0
    ensures ResampledLength(len, sourceRate) * sourceRate >= len * TargetRate
    ensures ResampledLength(len, sourceRate) == 0 || (ResampledLength(len, sourceRate) - 1) * sourceRate < len * TargetRate
  {
    var x := len as real / Ratio(sourceRate);
    var n := ResampledLength(len, sourceRate);
    var product := len * TargetRate;
    assert x * sourceRate as real == product as real by {
      assert x == product as real / sourceRate as real;
    }
    CeilBetween(x);
    assert n == Ceil(x);
    ScaleBetween(x, n as real, sourceRate as real, product as real);
    ProductAsReal(n, sourceRate);
    ProductAsReal(n as int - 1, sourceRate);
  }

  /** The ceiling of a non-negative real is a non-negative integer at most one above it. */
  lemma CeilBetween(x: real)
    requires x >= 0.0
    ensures Ceil(x) >= 0
    ensures x <= Ceil(x) as real && Ceil(x) as real - 1.0 < x
  {
    var f := (-x).Floor;
    assert f as real <= -x < f as real + 1.0;
  }

  /** Multiplying integers commutes with the conversion to real. */
  lemma ProductAsReal(a: int, b: int)
    ensures (a * b) as real == a as real * b as real
  {
  }

  /** Scaling `n - 1 < x <= n` by a positive factor keeps both bounds. */
  lemma ScaleBetween(x: real, n: real, rate: real, product: real)
    requires rate > 0.0 && x * rate == product
    requires n - 1.0 < x <= n
    ensures n * rate >= product
    ensures (n - 1.0) * rate < product
  {
    var above, below := n - x, x - (n - 1.0);
    MulNonnegReal(above, rate);
    MulPosReal(below, rate);
    calc {
      n * rate;
      (x + above) * rate;
      x * rate + above * rate;
    >=
      product;
    }
    calc {
      (n - 1.0) * rate;
      (x - below) * rate;
      x * rate - below * rate;
    <
      product;
    }
  }

  /** Output sample `i` sits at source index `floor(i * sourceRate / 16000)`, with a fraction in
      [0, 1) that is the exact remainder of that division. */
  lemma SourceIndexIsFloor(i: nat, sourceRate: nat)
    ensures SourceIndex(i, sourceRate) * TargetRate <= i * sourceRate < (SourceIndex(i, sourceRate) + 1) * TargetRate
    ensures 0.0 <= Fraction(i, sourceRate) < 1.0
    ensures Fraction(i, sourceRate) == (i * sourceRate - SourceIndex(i, sourceRate) * TargetRate) as real / TargetRate as real
  {
    var p := SourcePosition(i, sourceRate);
    assert p == (i * sourceRate) as real / TargetRate as real;
    assert p >= 0.0;
    var f := p.Floor;
    assert f as real <= p < f as real + 1.0;
    assert SourceIndex(i, sourceRate) == f;
    assert (f * TargetRate) as real <= (i * sourceRate) as real < ((f + 1) * TargetRate) as real;
  }

  /** Every output index reads inside the input: the zero branch of the interpolation is never
      taken. */
  lemma SourceIndexInRange(len: nat, sourceRate: nat, i: nat)
    requires sourceRate > 0
    requires i < ResampledLength(len, sourceRate)
    ensures SourceIndex(i, sourceRate) < len
  {
    ResampledLengthIsCeiling(len, sourceRate);
    SourceIndexIsFloor(i, sourceRate);
    var n := ResampledLength(len, sourceRate);
    var idx := SourceIndex(i, sourceRate);
    assert i * sourceRate <= (n - 1) * sourceRate;
    assert idx * TargetRate < len * TargetRate;
  }

  /** Rate 16000 is the identity, for every input including the empty one. */
  lemma ResampleIdentity(samples: seq<real>)
    ensures Resampled(samples, TargetRate) == samples
  {
  }

  /** An empty input resamples to an empty output at every rate, zero included. */
  lemma ResampleEmpty(sourceRate: nat)
    ensures Resampled([], sourceRate) == []
  {
  }

  /** The output length law, for every positive rate: empty input gives empty output, and
      otherwise the length is the ceiling of `len * 16000 / sourceRate`. */
  lemma ResampledLengthLaw(samples: seq<real>, sourceRate: nat)
    requires sourceRate > 0
    ensures |Resampled(samples, sourceRate)| == ResampledLength(|samples|, sourceRate)
    ensures |samples| == 0 ==> Resampled(samples, sourceRate) == []
  {
    if sourceRate == TargetRate {
      assert Ratio(sourceRate) == 1.0;
      assert (|samples| as real / 1.0) == |samples| as real;
    } else if |samples| == 0 {
      ResampledLengthIsCeiling(0, sourceRate);
    }
  }

  lemma MulNonnegReal(a: real, b: real)
    requires a >= 0.0 && b >= 0.0
    ensures a * b >= 0.0
  {
  }

  lemma MulPosReal(a: real, b: real)
    requires a > 0.0 && b > 0.0
    ensures a * b > 0.0
  {
  }

  /** Output `i` of a true resampling is the interpolated sample at `i`. */
  lemma ResampledAt(samples: seq<real>, sourceRate: nat, i: nat)
    requires sourceRate > 0 && sourceRate != TargetRate
    requires i < |Resampled(samples, sourceRate)|
    ensures i < ResampledLength(|samples|, sourceRate)
    ensures Resampled(samples, sourceRate)[i] == InterpolatedSample(samples, i, sourceRate)
  {
  }

  /** A weighted average with weight `frac` in [0, 1) lies between its two endpoints. */
  lemma ConvexBetween(a: real, b: real, frac: real)
    requires 0.0 <= frac < 1.0
    ensures var v := a * (1.0 - frac) + b * frac;
      (a <= v <= b) || (b <= v <= a)
  {
    var v := a * (1.0 - frac) + b * frac;
    assert v - a == frac * (b - a);
    assert b - v == (1.0 - frac) * (b - a);
    if a <= b {
      MulNonnegReal(frac, b - a);
      MulNonnegReal(1.0 - frac, b - a);
    } else {
      MulNonnegReal(frac, a - b);
      MulNonnegReal(1.0 - frac, a - b);
    }
  }

  /** An interpolated sample inside the input is a convex combination of the two source samples
      around its position, or the last source sample when there is no next one. */
  lemma InterpolatedSampleIsConvex(samples: seq<real>, i: nat, sourceRate: nat)
    requires SourceIndex(i, sourceRate) < |samples|
    ensures var idx, frac, v := SourceIndex(i, sourceRate), Fraction(i, sourceRate), InterpolatedSample(samples, i, sourceRate);
      if idx + 1 < |samples| then
        v == samples[idx] * (1.0 - frac) + samples[idx + 1] * frac &&
        ((samples[idx] <= v <= samples[idx + 1]) || (samples[idx + 1] <= v <= samples[idx]))
      else
        v == samples[idx]
  {
    var idx, frac := SourceIndex(i, sourceRate), Fraction(i, sourceRate);
    SourceIndexIsFloor(i, sourceRate);
    if idx + 1 < |samples| {
      ConvexBetween(samples[idx], samples[idx + 1], frac);
    }
  }

  /** Every output sample of a true resampling is a convex combination of the two source
      samples around its position, with a weight in [0, 1); past the last pair it is the last
      source sample. */
  lemma ResampledIsInterpolation(samples: seq<real>, sourceRate: nat, i: nat)
    requires sourceRate > 0 && sourceRate != TargetRate
    requires i < |Resampled(samples, sourceRate)|
    ensures SourceIndex(i, sourceRate) < |samples|
    ensures 0.0 <= Fraction(i, sourceRate) < 1.0
    ensures var idx, frac, v := SourceIndex(i, sourceRate), Fraction(i, sourceRate), Resampled(samples, sourceRate)[i];
      if idx + 1 < |samples| then
        v == samples[idx] * (1.0 - frac) + samples[idx + 1] * frac &&
        ((samples[idx] <= v <= samples[idx + 1]) || (samples[idx + 1] <= v <= samples[idx]))
      else
        v == samples[idx]
  {
    ResampledAt(samples, sourceRate, i);
    SourceIndexInRange(|samples|, sourceRate, i);
    SourceIndexIsFloor(i, sourceRate);
    InterpolatedSampleIsConvex(samples, i, sourceRate);
  }

  /** The first output sample is the first input sample. */
  lemma ResampledStartsWithFirstSample(samples: seq<real>, sourceRate: nat)
    requires sourceRate > 0 && |samples| > 0
    ensures |Resampled(samples, sourceRate)| > 0
    ensures Resampled(samples, sourceRate)[0] == samples[0]
  {
    if sourceRate != TargetRate {
      ResampledLengthPositive(|samples|, sourceRate);
      FirstInterpolatedSample(samples, sourceRate);
      ResampledAt(samples, sourceRate, 0);
    }
  }

  /** A non-empty input gives at least one output sample. */
  lemma ResampledLengthPositive(len: nat, sourceRate: nat)
    requires sourceRate > 0 && len > 0
    ensures ResampledLength(len, sourceRate) > 0
  {
    ResampledLengthIsCeiling(len, sourceRate);
    var n := ResampledLength(len, sourceRate);
    assert n * sourceRate >= len * TargetRate > 0;
  }

  /** Output sample 0 sits exactly on the first input sample. */
  lemma FirstInterpolatedSample(samples: seq<real>, sourceRate: nat)
    requires |samples| > 0
    ensures InterpolatedSample(samples, 0, sourceRate) == samples[0]
  {
    assert SourcePosition(0, sourceRate) == 0.0;
    assert SourceIndex(0, sourceRate) == 0 && Fraction(0, sourceRate) == 0.0;
  }

  /** Convert a finished recording for transcription: downmix when there is more than one
      channel, then resample to 16 kHz. */
  method ProcessRecordedAudio(raw: RawRecordedAudio) returns (r: Result<seq<real>, string>)
    requires raw.sampleRate > 0 || |raw.samples| == 0
    ensures r == Ok(Resampled(MonoOf(raw.samples, raw.channels), raw.sampleRate))
  {
    var mono := if raw.channels > 1 then ConvertToMono(raw.samples, raw.channels) else raw.samples;
    r := ResampleTo16kHz(mono, raw.sampleRate);
  }

  /** The length of a converted recording: one sample per frame after the downmix, then the
      resampler's ceiling law. */
  lemma ProcessedRecordingLength(raw: RawRecordedAudio)
    requires raw.sampleRate > 0
    ensures var frames := if raw.channels > 1 then (|raw.samples| + raw.channels - 1) / raw.channels else |raw.samples|;
      |Resampled(MonoOf(raw.samples, raw.channels), raw.sampleRate)| == ResampledLength(frames, raw.sampleRate)
  {
    ResampledLengthLaw(MonoOf(raw.samples, raw.channels), raw.sampleRate);
    if raw.channels > 1 {
      ConvertToMonoLength(raw.samples, raw.channels);
    }
  }

  // ---------------------------------------------------------------------------------------
  // Per-batch processing
  // ---------------------------------------------------------------------------------------

  /** The stream state after the audio callback has delivered one batch. When the lock
      attempt fails nothing happens. Otherwise the batch is recorded (up to the cap) if a
      recording is in progress, and its mono form is handed to the visualisation processor
      when monitoring, and to the speech processor when monitoring with processing enabled,
      each only if present. */
  function AfterBatch(s: StreamSnapshot, samples: seq<real>, channels: nat, lockAcquired: bool): StreamSnapshot
  {
    if !lockAcquired then s
    else
      var recorded := if s.isRecording then AppendRecording(s.recordingSamples, samples) else s.recordingSamples;
      var mono := MonoOf(samples, channels);
      var viz := if s.isMonitoring && s.visualizationProcessor.Some?
                 then Some(s.visualizationProcessor.value.Process(mono)) else s.visualizationProcessor;
      var speech := if s.isMonitoring && s.isProcessingEnabled && s.speechProcessor.Some?
                    then Some(s.speechProcessor.value.Process(mono)) else s.speechProcessor;
      s.(recordingSamples := recorded, visualizationProcessor := viz, speechProcessor := speech)
  }

  /** A batch never takes the recording buffer past the cap, appends exactly
      `min(len, remaining)` samples taken from the front of the batch, and leaves the samples
      already recorded in place. Without the lock, or when not recording, the buffer is left
      as it was. */
  lemma BatchRecording(s: StreamSnapshot, samples: seq<real>, channels: nat, lockAcquired: bool)
    requires |s.recordingSamples| <= MaxRecordingSamples
    ensures var t := AfterBatch(s, samples, channels, lockAcquired);
      var added := if lockAcquired && s.isRecording then Min(|samples|, MaxRecordingSamples - |s.recordingSamples|) else 0;
      && |t.recordingSamples| <= MaxRecordingSamples
      && t.recordingSamples == s.recordingSamples + samples[..added]
  {
    var t := AfterBatch(s, samples, channels, lockAcquired);
    if lockAcquired && s.isRecording {
      var added := Min(|samples|, MaxRecordingSamples - |s.recordingSamples|);
      assert t.recordingSamples == t.recordingSamples[..|s.recordingSamples|] + t.recordingSamples[|s.recordingSamples|..];
    } else {
      assert samples[..0] == [];
    }
  }

  /** Which processors see a batch: the visualisation processor exactly when the lock was
      taken, monitoring is on and one is present; the speech processor exactly when, in
      addition, processing is enabled. Each gets the mono form of the batch appended to what it
      had seen. */
  lemma ProcessorGating(s: StreamSnapshot, samples: seq<real>, channels: nat, lockAcquired: bool)
    ensures var t := AfterBatch(s, samples, channels, lockAcquired);
      var mono := MonoOf(samples, channels);
      && (if lockAcquired && s.isMonitoring && s.visualizationProcessor.Some?
          then t.visualizationProcessor == Some(VisualizationProcessor(s.visualizationProcessor.value.fed + [mono]))
          else t.visualizationProcessor == s.visualizationProcessor)
      && (if lockAcquired && s.isMonitoring && s.isProcessingEnabled && s.speechProcessor.Some?
          then t.speechProcessor == Some(SpeechDetector(s.speechProcessor.value.sampleRate, s.speechProcessor.value.fed + [mono]))
          else t.speechProcessor == s.speechProcessor)
  {
  }

  /** A batch changes only the recording buffer and the processors. */
  lemma BatchFrame(s: StreamSnapshot, samples: seq<real>, channels: nat, lockAcquired: bool)
    ensures var t := AfterBatch(s, samples, channels, lockAcquired);
      t == s.(recordingSamples := t.recordingSamples,
              visualizationProcessor := t.visualizationProcessor,
              speechProcessor := t.speechProcessor)
    ensures !lockAcquired ==> AfterBatch(s, samples, channels, lockAcquired) == s
  {
  }

  /** The mutable state shared between the audio callback and the control commands. */
  class AudioStreamState {
    var recordingSamples: seq<real>
    var sampleRate: nat
    var channels: nat
    var isRecording: bool
    var isMonitoring: bool
    var visualizationProcessor: Option<VisualizationProcessor>
    var isProcessingEnabled: bool
    var speechProcessor: Option<SpeechDetector>
    var streamActive: bool
    var sourceType: AudioSourceType

    /** The recording buffer is within its cap. */
    ghost predicate Valid()
      reads this
    {
      |recordingSamples| <= MaxRecordingSamples
    }

    /** The fields, as one value. */
    function Snapshot(): StreamSnapshot
      reads this
    {
      StreamSnapshot(recordingSamples, sampleRate, channels, isRecording, isMonitoring,
                     visualizationProcessor, isProcessingEnabled, speechProcessor,
                     streamActive, sourceType)
    }

    /** The empty state a recording state starts from: nothing recorded, no rate or channel
        count yet, nothing running, input source. */
    constructor ()
      ensures Valid()
      ensures Snapshot() == StreamSnapshot([], 0, 0, false, false, None, false, None, false, Input)
    {
      recordingSamples := [];
      sampleRate := 0;
      channels := 0;
      isRecording := false;
      isMonitoring := false;
      visualizationProcessor := None;
      isProcessingEnabled := false;
      speechProcessor := None;
      streamActive := false;
      sourceType := Input;
    }
  }

  /** Deliver one batch from the audio callback. `lockAcquired` is the outcome of the
      non-blocking lock attempt: when it fails the batch is skipped. */
  method ProcessAudioSamples(samples: seq<real>, channels: nat, state: AudioStreamState, lockAcquired: bool)
    modifies state
    ensures state.Snapshot() == AfterBatch(old(state.Snapshot()), samples, channels, lockAcquired)
    ensures old(state.Valid()) ==> state.Valid()
  {
    ghost var before := state.Snapshot();
    if lockAcquired {
      if state.isRecording {
        var remainingCapacity := RemainingCapacity(|state.recordingSamples|);
        if remainingCapacity > 0 {
          var samplesToAdd := Min(|samples|, remainingCapacity);
          state.recordingSamples := state.recordingSamples + samples[..samplesToAdd];
        }
      }
      var monoSamples := if channels > 1 then ConvertToMono(samples, channels) else samples;
      if state.isMonitoring {
        if state.visualizationProcessor.Some? {
          state.visualizationProcessor := Some(state.visualizationProcessor.value.Process(monoSamples));
        }
      }
      if state.isMonitoring && state.isProcessingEnabled {
        if state.speechProcessor.Some? {
          state.speechProcessor := Some(state.speechProcessor.value.Process(monoSamples));
        }
      }
    }
    if old(state.Valid()) {
      BatchRecording(before, samples, channels, lockAcquired);
    }
  }

  /** Handle on the shared stream state. The mutex around it is not modelled: each method
      here runs as one critical section. */
  class RecordingState {
    const state: AudioStreamState

    constructor ()
      ensures fresh(state) && state.Valid()
      ensures state.Snapshot() == StreamSnapshot([], 0, 0, false, false, None, false, None, false, Input)
    {
      state := new AudioStreamState();
    }

    /** Turn speech processing on or off. Turning it on installs a fresh speech detector at
        the stream's rate, or at 48000 when no rate is known; turning it off only clears the
        flag and keeps the detector. */
    method SetProcessingEnabled(enabled: bool)
      modifies state
      ensures var s := old(state.Snapshot());
        state.Snapshot() == s.(isProcessingEnabled := enabled,
          speechProcessor := if enabled
            then Some(SpeechDetector(if s.sampleRate > 0 then s.sampleRate else FallbackDetectorRate, []))
            else s.speechProcessor)
    {
      state.isProcessingEnabled := enabled;
      if enabled {
        var sampleRate := if state.sampleRate > 0 then state.sampleRate else FallbackDetectorRate;
        state.speechProcessor := Some(SpeechDetector(sampleRate, []));
      }
    }

    /** Record the format of a new capture and mark the stream active; nothing else changes. */
    method InitForCapture(sampleRate: nat, channels: nat, sourceType: AudioSourceType)
      modifies state
      ensures state.Snapshot() == old(state.Snapshot()).(sampleRate := sampleRate, channels := channels,
                                                         sourceType := sourceType, streamActive := true)
    {
      state.sampleRate := sampleRate;
      state.channels := channels;
      state.sourceType := sourceType;
      state.streamActive := true;
    }

    /** Mark the stream inactive; nothing else changes. */
    method MarkCaptureStopped()
      modifies state
      ensures state.Snapshot() == old(state.Snapshot()).(streamActive := false)
    {
      state.streamActive := false;
    }

    /** Entry point of the audio thread: process one batch. */
    method ProcessSamples(samples: seq<real>, channels: nat, lockAcquired: bool)
      modifies state
      ensures state.Snapshot() == AfterBatch(old(state.Snapshot()), samples, channels, lockAcquired)
      ensures old(state.Valid()) ==> state.Valid()
    {
      ProcessAudioSamples(samples, channels, state, lockAcquired);
    }
  }
}
