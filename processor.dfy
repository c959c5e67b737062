/** The silence detector: an audio processor that classifies each mono batch as silent or
    not by its RMS level in decibels against a threshold (-40 dB), and reports the initial
    classification and every later change of it.

    Square roots and logarithms are kept exact by representation: an amplitude is kept as its
    square and a decibel level as the power ratio it stands for. Both transforms are strictly
    increasing, so every comparison the detector makes is decided exactly. */
module Processor {
  import opened Common

  /** A non-negative amplitude kept as its square: `RootOf(p)` is the square root of `p`. */
  datatype Amplitude = RootOf(square: real)

  /** A level in decibels. `PowerRatio(p)`, for `p > 0`, is `10 * log10(p)` dB, which is
      `20 * log10` of the amplitude `sqrt(p)`. */
  datatype Decibels = NegativeInfinity | PowerRatio(ratio: real)

  /** `10` raised to a whole power. */
  function TenToThe(e: int): (r: real)
    ensures r > 0.0
    decreases if e < 0 then -e else e
  {
    if e == 0 then 1.0
    else if e > 0 then 10.0 * TenToThe(e - 1)
    else TenToThe(e + 1) / 10.0
  }

  /** The level of `db` decibels, for a whole multiple of ten: the power ratio `10^(db / 10)`. */
  function WholeDecibels(db: int): Decibels
    requires db % 10 == 0
  {
    PowerRatio(TenToThe(db / 10))
  }

  /** The detector's threshold, -40 dB. */
  const DefaultThresholdDb: Decibels := WholeDecibels(-40)

  /** -40 dB is a power ratio of one ten-thousandth, an RMS amplitude of 0.01. */
  lemma DefaultThresholdIsTenThousandth()
    ensures DefaultThresholdDb == PowerRatio(1.0 / 10000.0)
  {
    assert TenToThe(-4) == TenToThe(-3) / 10.0;
    assert TenToThe(-3) == TenToThe(-2) / 10.0;
    assert TenToThe(-2) == TenToThe(-1) / 10.0;
    assert TenToThe(-1) == TenToThe(0) / 10.0;
  }

  /** Strict `<` on decibel levels, with negative infinity below every finite level. */
  predicate Below(a: Decibels, b: Decibels)
  {
    match a
    case NegativeInfinity => b.PowerRatio?
    case PowerRatio(p) => b.PowerRatio? && p < b.ratio
  }

  /** The square of a sample. */
  function Square(x: real): real
  {
    x * x
  }

  /** Sum of the squares of a batch. */
  function SumOfSquares(samples: seq<real>): real
    decreases |samples|
  {
    if |samples| == 0 then 0.0 else Square(samples[0]) + SumOfSquares(samples[1..])
  }

  /** Mean of the squares of a batch; zero for an empty batch. */
  function MeanSquare(samples: seq<real>): real
  {
    if |samples| == 0 then 0.0 else SumOfSquares(samples) / |samples| as real
  }

  /** A square is never negative, and positive for anything but zero. */
  lemma SquarePositive(x: real)
    ensures Square(x) >= 0.0
    ensures x != 0.0 ==> Square(x) > 0.0
  {
    if x > 0.0 {
      calc {
        Square(x);
        x * x;
      >
        0.0;
      }
    } else if x < 0.0 {
      calc {
        Square(x);
        x * x;
        (-x) * (-x);
      >
        0.0;
      }
    }
  }

  /** A sum of squares is never negative, and it is zero exactly when every sample is zero. */
  lemma {:induction false} SumOfSquaresZeroIff(samples: seq<real>)
    ensures SumOfSquares(samples) >= 0.0
    ensures SumOfSquares(samples) == 0.0 <==> forall i :: 0 <= i < |samples| ==> samples[i] == 0.0
    decreases |samples|
  {
    if |samples| > 0 {
      SumOfSquaresZeroIff(samples[1..]);
      var x := samples[0];
      SquarePositive(x);
      if x == 0.0 {
        assert forall i :: 0 <= i < |samples[1..]| ==> samples[1..][i] == samples[i + 1];
        assert (forall i :: 0 <= i < |samples| ==> samples[i] == 0.0)
          <==> forall i :: 0 <= i < |samples[1..]| ==> samples[1..][i] == 0.0;
      }
    }
  }

  /** RMS amplitude of a batch: zero for an empty batch, otherwise the square root of the mean
      of the squares; never negative. */
  function CalculateRms(samples: seq<real>): (rms: Amplitude)
    ensures rms.square >= 0.0
    ensures rms.square == MeanSquare(samples)
  {
    SumOfSquaresZeroIff(samples);
    if |samples| == 0 then RootOf(0.0)
    else RootOf(SumOfSquares(samples) / |samples| as real)
  }

  /** An amplitude in decibels; an amplitude that is not positive is negative infinity. */
  function AmplitudeToDb(amplitude: Amplitude): (db: Decibels)
    ensures amplitude.square > 0.0 ==> db == PowerRatio(amplitude.square)
    ensures amplitude.square <= 0.0 <==> db == NegativeInfinity
  {
    // sqrt(p) <= 0 exactly when p <= 0
    if amplitude.square <= 0.0 then NegativeInfinity else PowerRatio(amplitude.square)
  }

  /** Whether a batch is silent against a threshold: its RMS level is below it. */
  predicate IsSilentBatch(samples: seq<real>, thresholdDb: Decibels)
  {
    Below(AmplitudeToDb(CalculateRms(samples)), thresholdDb)
  }

  /** Against -40 dB a batch is silent exactly when its mean square is below 1/10000, that is,
      when its RMS amplitude is below 0.01. */
  lemma SilentIffQuiet(samples: seq<real>)
    ensures IsSilentBatch(samples, DefaultThresholdDb) <==> MeanSquare(samples) < 1.0 / 10000.0
  {
    DefaultThresholdIsTenThousandth();
  }

  /** An empty batch and an all-zero batch are silent, against any finite threshold. */
  lemma ZeroBatchIsSilent(samples: seq<real>, threshold: real)
    requires forall i :: 0 <= i < |samples| ==> samples[i] == 0.0
    ensures IsSilentBatch(samples, PowerRatio(threshold))
  {
    SumOfSquaresZeroIff(samples);
  }

  /** A batch with a sound sample has a finite level. */
  lemma SoundHasFiniteLevel(samples: seq<real>, i: nat)
    requires i < |samples| && samples[i] != 0.0
    ensures AmplitudeToDb(CalculateRms(samples)).PowerRatio?
  {
    SumOfSquaresZeroIff(samples);
    assert SumOfSquares(samples) > 0.0;
    assert SumOfSquares(samples) / |samples| as real > 0.0;
  }

  // ---------------------------------------------------------------------------------------
  // State machine
  // ---------------------------------------------------------------------------------------

  /** The detector's two flags. */
  datatype DetectorState = DetectorState(initialized: bool, isSilent: bool)

  /** What a new detector starts from. */
  const Fresh: DetectorState := DetectorState(false, true)

  const InitialSilenceMessage: string := "[SilenceDetector] Silence detected (initial state)"
  const InitialSoundMessage: string := "[SilenceDetector] Sound detected (initial state)"
  const SilenceMessage: string := "[SilenceDetector] Silence detected"
  const SoundMessage: string := "[SilenceDetector] Sound detected"

  /** One classified batch: the first one is reported as the initial state, a later one only
      when the classification changes. Returns the new flags and the message logged, if any. */
  function Step(s: DetectorState, nowSilent: bool): (DetectorState, Option<string>)
  {
    if !s.initialized then
      (DetectorState(true, nowSilent), Some(if nowSilent then InitialSilenceMessage else InitialSoundMessage))
    else if nowSilent != s.isSilent then
      (DetectorState(true, nowSilent), Some(if nowSilent then SilenceMessage else SoundMessage))
    else
      (s, None)
  }

  /** After any batch the detector is initialized and holds that batch's classification; it
      logs exactly when it was not initialized or the classification changed; and a batch that
      matches the current classification changes nothing. */
  lemma StepLaw(s: DetectorState, nowSilent: bool)
    ensures Step(s, nowSilent).0 == DetectorState(true, nowSilent)
    ensures Step(s, nowSilent).1.Some? <==> (!s.initialized || s.isSilent != nowSilent)
    ensures s.initialized && s.isSilent == nowSilent ==> Step(s, nowSilent) == (s, None)
  {
  }

  /** The flags and the messages logged after feeding `classes` in order. */
  function Run(s: DetectorState, classes: seq<bool>): (DetectorState, seq<string>)
    decreases |classes|
  {
    if |classes| == 0 then (s, [])
    else
      var (next, message) := Step(s, classes[0]);
      var (last, rest) := Run(next, classes[1..]);
      (last, (if message.Some? then [message.value] else []) + rest)
  }

  /** Number of adjacent positions where the classification changes. */
  function Changes(classes: seq<bool>): nat
    decreases |classes|
  {
    if |classes| < 2 then 0
    else (if classes[0] != classes[1] then 1 else 0) + Changes(classes[1..])
  }

  /** From an initialized detector, one message is logged per change, counting the change from
      the current classification to the first batch. */
  lemma {:induction false} RunFromInitializedCountsChanges(s: DetectorState, classes: seq<bool>)
    requires s.initialized
    ensures |Run(s, classes).1| == Changes([s.isSilent] + classes)
    decreases |classes|
  {
    if |classes| > 0 {
      var next := Step(s, classes[0]).0;
      RunFromInitializedCountsChanges(next, classes[1..]);
      assert ([s.isSilent] + classes)[1..] == [next.isSilent] + classes[1..];
    }
  }

  /** A fresh detector fed a non-empty sequence of batches logs one message for the initial
      state plus one per change of classification between neighbours, never more. */
  lemma FreshRunCountsChanges(classes: seq<bool>)
    requires |classes| > 0
    ensures |Run(Fresh, classes).1| == 1 + Changes(classes)
  {
    var next := Step(Fresh, classes[0]).0;
    RunFromInitializedCountsChanges(next, classes[1..]);
    assert [next.isSilent] + classes[1..] == classes;
  }

  /** Feeding batches in order ends with the classification of the last batch. */
  lemma {:induction false} RunEndsOnLastClass(s: DetectorState, classes: seq<bool>)
    requires |classes| > 0
    ensures Run(s, classes).0 == DetectorState(true, classes[|classes| - 1])
    decreases |classes|
  {
    if |classes| > 1 {
      RunEndsOnLastClass(Step(s, classes[0]).0, classes[1..]);
    }
  }

  /** The detector object. */
  class SilenceDetector {
    /** Threshold below which a batch is silent. */
    const thresholdDb: Decibels
    var isSilent: bool
    var initialized: bool

    /** The flags, as one value. */
    function State(): DetectorState
      reads this
    {
      DetectorState(initialized, isSilent)
    }

    /** A new detector: threshold -40 dB, silent, nothing reported yet. */
    constructor ()
      ensures thresholdDb == DefaultThresholdDb
      ensures State() == Fresh
    {
      thresholdDb := DefaultThresholdDb;
      isSilent := true;
      initialized := false;
    }

    /** Classify one batch; update the flags and return the message logged, if any. */
    method Process(samples: seq<real>) returns (message: Option<string>)
      modifies this
      ensures (State(), message) == Step(old(State()), IsSilentBatch(samples, thresholdDb))
    {
      var rms := CalculateRms(samples);
      var db := AmplitudeToDb(rms);
      var nowSilent := Below(db, thresholdDb);
      message := None;
      if !initialized {
        initialized := true;
        isSilent := nowSilent;
        if nowSilent {
          message := Some(InitialSilenceMessage);
        } else {
          message := Some(InitialSoundMessage);
        }
      } else if nowSilent != isSilent {
        isSilent := nowSilent;
        if nowSilent {
          message := Some(SilenceMessage);
        } else {
          message := Some(SoundMessage);
        }
      }
    }

    /** The name the processor identifies itself by. */
    function Name(): (name: string)
      ensures name == "SilenceDetector"
    {
      "SilenceDetector"
    }
  }
}
