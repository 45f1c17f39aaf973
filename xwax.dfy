/** The DVS engine (`XWaxDVS`): feeds stereo timecode audio to an xwax timecoder and
    publishes the speed, tempo, position and timecode it reports, together with a
    signal-quality score averaged over the last 32 ticks. The timecoder itself
    (carrier demodulation, the LFSR position lookup, the pitch filters) is not
    modelled: each tick receives the pitch and the position in milliseconds that
    `timecoder_get_pitch` and `timecoder_get_position` report after the submission. */
module XWax {
  import opened CNumeric

  // ---------------------------------------------------------------------------
  // Settings.

  /** `VinylType`, in declaration order. */
  datatype VinylType = Serato2a | Serato2b | SeratoCd | TraktorA | TraktorB | TraktorMk2A
                     | TraktorMk2B | TraktorMk2Cd | MixVibesV2 | MixVibes7inch | PioneerA | PioneerB

  datatype Speed = Rpm33 | Rpm45

  datatype PitchFilter = Kalman | AlphaBeta

  /** The integer value of a vinyl type, as `static_cast<int>` gives it. */
  function VinylIndex(v: VinylType): (r: int)
    ensures 0 <= r < 12
  {
    match v
    case Serato2a => 0
    case Serato2b => 1
    case SeratoCd => 2
    case TraktorA => 3
    case TraktorB => 4
    case TraktorMk2A => 5
    case TraktorMk2B => 6
    case TraktorMk2Cd => 7
    case MixVibesV2 => 8
    case MixVibes7inch => 9
    case PioneerA => 10
    case PioneerB => 11
  }

  function SpeedIndex(s: Speed): (r: int)
    ensures r == 0 || r == 1
  {
    if s == Rpm33 then 0 else 1
  }

  function FilterIndex(f: PitchFilter): (r: int)
    ensures r == 0 || r == 1
  {
    if f == Kalman then 0 else 1
  }

  /** The xwax definition names, indexed by vinyl type. */
  const TimecodeNames: seq<string> := [
    "serato_2a", "serato_2b", "serato_cd", "traktor_a", "traktor_b", "traktor_mk2_a",
    "traktor_mk2_b", "traktor_mk2_cd", "mixvibes_v2", "mixvibes_7inch", "pioneer_a", "pioneer_b"]

  /** `get_timecode_name`: the table entry for an index, or serato_2a for an index
      outside the table. */
  function TimecodeName(idx: int): (name: string)
    ensures !(0 <= idx < |TimecodeNames|) ==> name == "serato_2a"
  {
    if 0 <= idx < |TimecodeNames| then TimecodeNames[idx] else TimecodeNames[0]
  }

  /** `get_speed_multiplier`: 1.35 at 45 rpm, 1.0 at 33 rpm. */
  function SpeedMultiplier(s: Speed): (m: real)
    ensures m == 1.35 <==> s == Rpm45
    ensures m == 1.0 <==> s != Rpm45
  {
    if s == Rpm45 then 1.35 else 1.0
  }

  /** `timecoder_find_definition` on the requested name, falling back to serato_2a;
      `definitions` are the names xwax can build a definition for. */
  function FindDefinition(name: string, definitions: set<string>): (r: Option<string>)
    ensures r.Some? ==> r.value in definitions && (r.value == name || r.value == "serato_2a")
    ensures name in definitions ==> r == Some(name)
    ensures r.None? <==> name !in definitions && "serato_2a" !in definitions
  {
    if name in definitions then Some(name)
    else if "serato_2a" in definitions then Some("serato_2a")
    else None
  }

  /** The arguments `timecoder_init` receives. The sample rate is recorded as the
      setup's rate; the `unsigned int` that `timecoder_init` is given is
      `TimecoderRate` of the configuration. */
  datatype TimecoderConfig = TimecoderConfig(definition: string, speed: real, setupRate: real,
                                             phono: bool, legacyPitch: bool)

  /** The sample rate `timecoder_init` is given: the setup rate converted to
      `unsigned int`, which truncates a positive rate toward zero. */
  function TimecoderRate(c: TimecoderConfig): (r: int)
    requires c.setupRate > 0.0
    ensures 0 <= r && r as real <= c.setupRate < r as real + 1.0
  {
    Trunc(c.setupRate)
  }

  // ---------------------------------------------------------------------------
  // Samples.

  const SampleScale: real := 32767.0

  /** One double sample as a 16-bit sample: scaled by 32767, clamped to the range
      of `signed short`, then truncated toward zero. */
  function ToShort(x: real): (r: int)
    ensures -32768 <= r <= 32767
    ensures -1.0 <= x <= 1.0 ==> r == Trunc(x * SampleScale)
  {
    Trunc(Clamp(x * SampleScale, -32768.0, 32767.0))
  }

  // ---------------------------------------------------------------------------
  // Signal quality.

  const QualityRingSize := 32

  /** The position score: 0 when xwax reports -1, 100 on the first position or a move of
      at least 5 ms, 50 on a smaller move. */
  function PositionQuality(pos: int, last: int): (r: int)
    ensures r == 0 || r == 50 || r == 100
    ensures r == 0 <==> pos == -1
    ensures r == 50 <==> pos != -1 && last != -1 && -5 < pos - last < 5
  {
    if pos == -1 then 0
    else if last == -1 || pos - last >= 5 || last - pos >= 5 then 100
    else 50
  }

  /** The pitch score: 0 before any score is stored or when the pitch did not change;
      otherwise by the stability |pitch / change|: below 3 scores 0, above 6 scores 100,
      anything between scores 75. The comparisons are made as |pitch| against
      multiples of |change|, which over the reals is the same test (see
      PitchQualityIsStability). */
  function PitchQuality(pitch: real, last: real, filled: int): (r: int)
    ensures r == 0 || r == 75 || r == 100
    ensures filled <= 0 || pitch == last ==> r == 0
  {
    if filled > 0 && pitch - last != 0.0 then
      var change := Abs(pitch - last);
      if Abs(pitch) < 3.0 * change then 0 else if Abs(pitch) > 6.0 * change then 100 else 75
    else 0
  }

  /** The score one tick stores in the ring. */
  function Score(pos: int, lastPos: int, pitch: real, lastPitch: real, filled: int): (r: int)
    ensures 0 <= r <= 200
  {
    PositionQuality(pos, lastPos) + PitchQuality(pitch, lastPitch, filled)
  }

  /** `std::accumulate` over a run of scores. */
  function Sum(s: seq<int>): int
  {
    if s == [] then 0 else Sum(s[..|s| - 1]) + s[|s| - 1]
  }

  /** The last n elements of h (all of h when it is shorter). */
  function LastN(h: seq<int>, n: nat): (r: seq<int>)
    ensures |r| == Min(|h|, n)
    ensures r == h[|h| - |r|..]
  {
    if |h| <= n then h else h[|h| - n..]
  }

  /** The published quality of a non-empty window of scores: its mean over the maximum
      score 200, clamped to [0, 1]. */
  function WindowQuality(w: seq<int>): real
    requires w != []
  {
    MeanQuality(Sum(w), |w|)
  }

  /** The quality formula: a score sum over count ticks, divided by 2 * 100 * count and
      clamped to [0, 1]. */
  function MeanQuality(sum: int, count: int): (q: real)
    requires count > 0
    ensures 0.0 <= q <= 1.0
  {
    Clamp(sum as real / (2.0 * 100.0 * count as real), 0.0, 1.0)
  }

  predicate InScoreRange(w: seq<int>)
  {
    forall i :: 0 <= i < |w| ==> 0 <= w[i] <= 200
  }

  /** What `init_timecoder` sets up for the given controls and sample rate
      (`TimecoderForCases` states what that is). */
  function TimecoderFor(vinylType: VinylType, speed: Speed, pitchFilter: PitchFilter, sampleRate: real,
                        definitions: set<string>): Option<TimecoderConfig>
  {
    if sampleRate <= 0.0 then None
    else match FindDefinition(TimecodeName(VinylIndex(vinylType)), definitions)
      case None => None
      case Some(d) => Some(TimecoderConfig(d, SpeedMultiplier(speed), sampleRate, false,
                                           pitchFilter == AlphaBeta))
  }

  /** `init_timecoder` sets up nothing without a positive sample rate or when neither
      the requested definition nor serato_2a can be found; otherwise a timecoder on the
      definition found, at the speed's multiplier, with the phono flag off and the
      legacy pitch filter exactly for alpha-beta. */
  lemma TimecoderForCases(vinylType: VinylType, speed: Speed, pitchFilter: PitchFilter, sampleRate: real,
                          definitions: set<string>)
    ensures var r := TimecoderFor(vinylType, speed, pitchFilter, sampleRate, definitions);
      && (r.Some? <==> sampleRate > 0.0
                       && (TimecodeName(VinylIndex(vinylType)) in definitions || "serato_2a" in definitions))
      && (r.Some? ==> r.value.definition in definitions && r.value.setupRate == sampleRate
                      && r.value.speed == SpeedMultiplier(speed) && !r.value.phono
                      && (r.value.legacyPitch <==> pitchFilter == AlphaBeta))
  {
  }

  /** The quality ring r, read from `idx`, holds the last (up to) 32 scores of h; `filled`
      slots are in use and every slot holds a score. */
  predicate RingHolds(r: seq<int>, idx: int, filled: int, h: seq<int>)
  {
    && |r| == QualityRingSize
    && 0 <= idx < QualityRingSize
    && filled == Min(|h|, QualityRingSize)
    && idx == |h| % QualityRingSize
    && InScoreRange(r)
    && r[idx..filled] + r[..idx] == LastN(h, QualityRingSize)
  }

  // ---------------------------------------------------------------------------
  // The engine.

  class XWaxDvs {
    // Inputs.
    var vinylType: VinylType
    var speed: Speed
    var pitchFilter: PitchFilter
    var leadin: real
    var tempo: real
    /** `m_setup.rate`. */
    var sampleRate: real
    // Outputs.
    var outSpeed: real
    var outTempo: real
    var outPosition: real
    var outTimecode: int
    var outQuality: real
    var outValid: bool
    // Engine state.
    /** The configuration the timecoder was last initialised with, while it is. */
    var timecoder: Option<TimecoderConfig>
    /** `m_timecode_def`, by name. */
    var definition: Option<string>
    var initialized: bool
    var workBuffer: seq<int>
    var lastVinylType: int
    var lastSpeed: int
    var lastPitchFilter: int
    const ring: array<int>
    var ringIndex: int
    var ringFilled: int
    var lastPosition: int
    var lastPitch: real
    /** Every score stored since the quality tracking was last reset. */
    ghost var History: seq<int>

    /** The ring holds the last (up to) 32 scores, oldest first from `ringIndex`. */
    ghost predicate Valid()
      reads ring, this`ringIndex, this`ringFilled, this`History, this`initialized
      reads this`timecoder, this`definition
    {
      && ring.Length == QualityRingSize
      && RingHolds(ring[..], ringIndex, ringFilled, History)
      && initialized == timecoder.Some?
      && definition == (if timecoder.Some? then Some(timecoder.value.definition) else None)
    }

    /** The settings seen by the last tick are the current ones. */
    predicate Tracked()
      reads this`vinylType, this`speed, this`pitchFilter, this`lastVinylType, this`lastSpeed, this`lastPitchFilter
    {
      lastVinylType == VinylIndex(vinylType) && lastSpeed == SpeedIndex(speed)
      && lastPitchFilter == FilterIndex(pitchFilter)
    }

    /** The speed, tempo and position outputs of a tick in which the timecoder reported
        `pitch` and `positionMs`: with a position, the position in seconds less the
        lead-in and the position itself, both through `convert`; without one, 0, -1 and
        invalid. */
    ghost predicate Published(pitch: real, positionMs: int, convert: real -> real)
      reads this`outSpeed, this`outTempo, this`outPosition, this`outTimecode, this`outValid
      reads this`tempo, this`leadin
    {
      && outSpeed == pitch && outTempo == pitch * tempo
      && (outValid <==> positionMs >= 0)
      && (positionMs >= 0 ==>
            outPosition == convert(positionMs as real / 1000.0 - leadin)
            && outTimecode == Trunc(convert(positionMs as real / 1000.0)))
      && (positionMs < 0 ==> outPosition == 0.0 && outTimecode == -1)
    }

    /** The outputs of a tick that cannot decode. */
    predicate Silent()
      reads this`outSpeed, this`outTempo, this`outPosition, this`outTimecode, this`outQuality, this`outValid
    {
      outSpeed == 0.0 && outTempo == 0.0 && outPosition == 0.0 && outTimecode == -1
      && outQuality == 0.0 && !outValid
    }

    /** The work buffer starts with the first `frames` samples of both channels as
        16-bit samples, interleaved left first. */
    ghost predicate Interleaved(left: seq<real>, right: seq<real>, frames: int)
      requires 0 <= frames <= |left| && frames <= |right|
      reads this`workBuffer
    {
      && 2 * frames <= |workBuffer|
      && forall i :: 0 <= i < frames ==>
           workBuffer[2 * i] == ToShort(left[i]) && workBuffer[2 * i + 1] == ToShort(right[i])
    }

    /** The engine as declared: default controls, zero outputs, no timecoder, trackers
        at -1 and an all-zero ring. */
    constructor ()
      ensures Valid() && fresh(ring) && !Tracked()
      ensures vinylType == Serato2a && speed == Rpm33 && pitchFilter == Kalman
      ensures leadin == 0.0 && tempo == 120.0 && sampleRate == 0.0
      ensures outSpeed == 0.0 && outTempo == 0.0 && outPosition == 0.0 && outTimecode == 0
      ensures outQuality == 0.0 && !outValid
      ensures timecoder == None && workBuffer == [] && History == []
      ensures lastPosition == -1 && lastPitch == 0.0
    {
      vinylType, speed, pitchFilter, leadin, tempo, sampleRate := Serato2a, Rpm33, Kalman, 0.0, 120.0, 0.0;
      outSpeed, outTempo, outPosition, outTimecode, outQuality, outValid := 0.0, 0.0, 0.0, 0, 0.0, false;
      timecoder, definition, initialized, workBuffer := None, None, false, [];
      lastVinylType, lastSpeed, lastPitchFilter := -1, -1, -1;
      ring := new int[QualityRingSize](_ => 0);
      ringIndex, ringFilled, lastPosition, lastPitch := 0, 0, -1, 0.0;
      History := [];
    }

    /** `clear_timecoder`: releases the timecoder if it was initialised and forgets the
        definition. */
    method ClearTimecoder()
      requires Valid()
      modifies this`timecoder, this`initialized, this`definition
      ensures !initialized && timecoder == None && definition == None
    {
      if initialized {
        timecoder := None;
        initialized := false;
      }
      definition := None;
    }

    /** `init_timecoder`: clears the timecoder, then initialises it for the current
        settings when it can. Quality tracking restarts only when it does. */
    method InitTimecoder(definitions: set<string>)
      requires Valid()
      modifies this`timecoder, this`initialized, this`definition, ring, this`ringIndex, this`ringFilled
      modifies this`lastPosition, this`lastPitch, this`History
      ensures Valid()
      ensures timecoder == TimecoderFor(old(vinylType), old(speed), old(pitchFilter), old(sampleRate), definitions)
      ensures initialized ==> History == [] && lastPosition == -1 && lastPitch == 0.0
                              && forall i :: 0 <= i < ring.Length ==> ring[i] == 0
      ensures !initialized ==> History == old(History) && lastPosition == old(lastPosition)
                               && lastPitch == old(lastPitch) && unchanged(ring)
    {
      ClearTimecoder();
      if sampleRate <= 0.0 {
        return;
      }
      var name := TimecodeName(VinylIndex(vinylType));
      var multiplier := SpeedMultiplier(speed);
      var legacyPitch := pitchFilter == AlphaBeta;
      definition := FindDefinition(name, definitions);
      if definition.None? {
        return;
      }
      timecoder := Some(TimecoderConfig(definition.value, multiplier, sampleRate, false, legacyPitch));
      initialized := true;
      forall i | 0 <= i < ring.Length {
        ring[i] := 0;
      }
      ringIndex, ringFilled, lastPosition, lastPitch := 0, 0, -1, 0.0;
      History := [];
    }

    /** `prepare`: records the sample rate and sets the trackers to -1 so that the next
        tick reinitialises the timecoder. */
    method Prepare(rate: real)
      modifies this`sampleRate, this`lastVinylType, this`lastSpeed, this`lastPitchFilter
      ensures sampleRate == rate && !Tracked()
      ensures lastVinylType == -1 && lastSpeed == -1 && lastPitchFilter == -1
    {
      sampleRate := rate;
      lastVinylType, lastSpeed, lastPitchFilter := -1, -1, -1;
    }

    /** The change detection at the start of a tick: a vinyl type, speed or pitch filter
        different from the last tick's reinitialises the timecoder. */
    method ApplySettings(definitions: set<string>)
      requires Valid()
      modifies this`timecoder, this`initialized, this`definition, ring, this`ringIndex, this`ringFilled
      modifies this`lastPosition, this`lastPitch, this`History
      modifies this`lastVinylType, this`lastSpeed, this`lastPitchFilter
      ensures Valid() && Tracked()
      ensures timecoder == if old(Tracked()) then old(timecoder)
                           else TimecoderFor(old(vinylType), old(speed), old(pitchFilter), old(sampleRate), definitions)
      ensures var reset := !old(Tracked()) && initialized;
        && History == (if reset then [] else old(History))
        && lastPosition == (if reset then -1 else old(lastPosition))
        && lastPitch == (if reset then 0.0 else old(lastPitch))
    {
      var currentVinylType := VinylIndex(vinylType);
      var currentSpeed := SpeedIndex(speed);
      var currentPitchFilter := FilterIndex(pitchFilter);
      if currentVinylType != lastVinylType || currentSpeed != lastSpeed || currentPitchFilter != lastPitchFilter {
        Reinit(definitions);
      }
    }

    /** The reinitialisation on a change of settings: `init_timecoder`, then the
        current settings become the tracked ones. */
    method Reinit(definitions: set<string>)
      requires Valid()
      modifies this`timecoder, this`initialized, this`definition, ring, this`ringIndex, this`ringFilled
      modifies this`lastPosition, this`lastPitch, this`History
      modifies this`lastVinylType, this`lastSpeed, this`lastPitchFilter
      ensures Valid() && Tracked()
      ensures timecoder == TimecoderFor(old(vinylType), old(speed), old(pitchFilter), old(sampleRate), definitions)
      ensures initialized ==> History == [] && lastPosition == -1 && lastPitch == 0.0
      ensures !initialized ==>
        History == old(History) && lastPosition == old(lastPosition) && lastPitch == old(lastPitch)
    {
      // The trackers are recorded before init_timecoder here rather than after it:
      // init_timecoder neither reads nor writes them, so the outcome is the same.
      lastVinylType, lastSpeed, lastPitchFilter := VinylIndex(vinylType), SpeedIndex(speed), FilterIndex(pitchFilter);
      InitTimecoder(definitions);
    }

    /** Sets the outputs of a tick that cannot decode. */
    method Silence()
      modifies this`outSpeed, this`outTempo, this`outPosition, this`outTimecode, this`outQuality, this`outValid
      ensures Silent()
    {
      outSpeed, outTempo, outPosition, outTimecode, outQuality, outValid := 0.0, 0.0, 0.0, -1, 0.0, false;
    }

    /** The conversion loop: grows the work buffer to at least 2 * frames (it never
        shrinks) and interleaves the two channels as 16-bit samples, left first. */
    method FillWorkBuffer(left: seq<real>, right: seq<real>, frames: int)
      requires 0 < frames <= |left| && frames <= |right|
      modifies this`workBuffer
      ensures |workBuffer| == Max(|old(workBuffer)|, 2 * frames)
      ensures Interleaved(left, right, frames)
      ensures workBuffer[2 * frames..] == old(workBuffer)[Min(2 * frames, |old(workBuffer)|)..]
    {
      if |workBuffer| < 2 * frames {
        workBuffer := workBuffer + seq(2 * frames - |workBuffer|, _ => 0);
      }
      var i := 0;
      while i < frames
        invariant 0 <= i <= frames
        invariant |workBuffer| == Max(|old(workBuffer)|, 2 * frames)
        invariant forall j :: 0 <= j < i ==>
          workBuffer[2 * j] == ToShort(left[j]) && workBuffer[2 * j + 1] == ToShort(right[j])
        invariant workBuffer[2 * frames..] == old(workBuffer)[Min(2 * frames, |old(workBuffer)|)..]
      {
        workBuffer := workBuffer[2 * i := ToShort(left[i])][2 * i + 1 := ToShort(right[i])];
        i := i + 1;
      }
    }

    /** The position outputs: with a position, the position in seconds less the lead-in
        and the position itself, both through `convert`; without one, 0, -1 and invalid. */
    method PublishPosition(positionMs: int, convert: real -> real)
      modifies this`outPosition, this`outTimecode, this`outValid
      ensures outValid <==> positionMs >= 0
      ensures positionMs >= 0 ==>
        outPosition == convert(positionMs as real / 1000.0 - leadin)
        && outTimecode == Trunc(convert(positionMs as real / 1000.0))
      ensures positionMs < 0 ==> outPosition == 0.0 && outTimecode == -1
    {
      if positionMs >= 0 {
        var positionSec := positionMs as real / 1000.0;
        outPosition := convert(positionSec - leadin);
        outTimecode := Trunc(convert(positionSec));
        outValid := true;
      } else {
        outPosition := 0.0;
        outTimecode := -1;
        outValid := false;
      }
    }

    /** The first half of the quality update: scores this tick against the last
        position and pitch, stores the score in the ring and moves the ring on. */
    method StoreScore(pitch: real, positionMs: int)
      requires Valid()
      modifies ring, this`ringIndex, this`ringFilled, this`lastPosition, this`lastPitch, this`History
      ensures Valid()
      ensures History == old(History) + [Score(positionMs, old(lastPosition), pitch, old(lastPitch),
                                                Min(|old(History)|, QualityRingSize))]
      ensures lastPosition == positionMs && lastPitch == pitch
    {
      var positionQuality := PositionQuality(positionMs, lastPosition);
      lastPosition := positionMs;
      var pitchQuality := PitchQuality(pitch, lastPitch, ringFilled);
      lastPitch := pitch;
      PushScore(positionQuality + pitchQuality);
    }

    /** Stores a score in the ring at the current index, moves the index on and counts
        the slot as filled. */
    method PushScore(score: int)
      requires Valid() && 0 <= score <= 200
      modifies ring, this`ringIndex, this`ringFilled, this`History
      ensures Valid() && History == old(History) + [score]
    {
      ghost var r0, idx0, filled0, h0 := ring[..], ringIndex, ringFilled, History;
      RingStep(r0, idx0, filled0, h0, score);
      ring[ringIndex] := score;
      ringIndex := (ringIndex + 1) % QualityRingSize;
      if ringFilled < QualityRingSize {
        ringFilled := ringFilled + 1;
      }
      History := History + [score];
      assert ringIndex == (idx0 + 1) % QualityRingSize && ringFilled == Min(filled0 + 1, QualityRingSize);
      assert ring[..] == r0[idx0 := score];
    }

    /** The second half: the mean of the stored scores, which are the last (up to) 32
        scores since the reset. */
    method PublishQuality()
      requires Valid() && History != []
      modifies this`outQuality
      ensures outQuality == WindowQuality(LastN(History, QualityRingSize))
    {
      RingSum(ring[..], ringIndex, ringFilled);
      assert ring[..][..ringFilled] == ring[..ringFilled];
      var qualitySum := Sum(ring[..ringFilled]);
      outQuality := MeanQuality(qualitySum, ringFilled);
    }

    /** The speed, tempo and position outputs of a decoded tick. */
    method Publish(pitch: real, positionMs: int, convert: real -> real)
      modifies this`outSpeed, this`outTempo, this`outPosition, this`outTimecode, this`outValid
      ensures Published(pitch, positionMs, convert)
    {
      outSpeed := pitch;
      outTempo := pitch * tempo;
      PublishPosition(positionMs, convert);
    }

    /** The quality update: stores this tick's score and publishes the mean of the
        stored scores. */
    method UpdateQuality(pitch: real, positionMs: int)
      requires Valid()
      modifies ring, this`ringIndex, this`ringFilled, this`lastPosition, this`lastPitch, this`History
      modifies this`outQuality
      ensures Valid()
      ensures History == old(History) + [Score(positionMs, old(lastPosition), pitch, old(lastPitch),
                                                Min(|old(History)|, QualityRingSize))]
      ensures lastPosition == positionMs && lastPitch == pitch
      ensures outQuality == WindowQuality(LastN(History, QualityRingSize))
    {
      StoreScore(pitch, positionMs);
      PublishQuality();
    }

    /** A tick with a timecoder and stereo audio: converts and submits the samples,
        publishes the reported pitch and position and updates the quality. */
    method Process(frames: int, left: seq<real>, right: seq<real>, pitch: real, positionMs: int,
                   convert: real -> real)
      requires Valid() && 0 < frames <= |left| && frames <= |right|
      modifies this`workBuffer, this`outSpeed, this`outTempo, this`outPosition, this`outTimecode, this`outValid
      modifies ring, this`ringIndex, this`ringFilled, this`lastPosition, this`lastPitch, this`History
      modifies this`outQuality
      ensures Valid()
      ensures |workBuffer| == Max(|old(workBuffer)|, 2 * frames)
      ensures Interleaved(left, right, frames)
      ensures Published(pitch, positionMs, convert)
      ensures History == old(History) + [Score(positionMs, old(lastPosition), pitch, old(lastPitch),
                                                Min(|old(History)|, QualityRingSize))]
      ensures lastPosition == positionMs && lastPitch == pitch
      ensures outQuality == WindowQuality(LastN(History, QualityRingSize))
    {
      FillWorkBuffer(left, right, frames);
      // timecoder_submit, timecoder_get_pitch and timecoder_get_position are not
      // modelled: pitch and positionMs are what they report.
      Publish(pitch, positionMs, convert);
      UpdateQuality(pitch, positionMs);
    }

    /** What a tick leaves behind once the timecoder is settled, from the quality
        history `h0`, the previous position and pitch `lastPos0`, `lastPitch0` and the
        work buffer `w0`: without a timecoder, or without stereo audio and frames, silent
        outputs and untouched tracking and work buffer; otherwise a work buffer grown to
        at least 2 * frames holding the interleaved samples, the published speed,
        tempo and position, one more score in the history and the mean score of its
        last 32 entries as the quality. */
    ghost predicate Outcome(frames: int, audio: seq<seq<real>>, pitch: real, positionMs: int,
                            convert: real -> real, h0: seq<int>, lastPos0: int, lastPitch0: real,
                            w0: seq<int>)
      requires |audio| >= 2 && frames > 0 ==> |audio[0]| >= frames && |audio[1]| >= frames
      reads this`initialized, this`workBuffer, this`History, this`lastPosition, this`lastPitch
      reads this`outSpeed, this`outTempo, this`outPosition, this`outTimecode, this`outQuality, this`outValid
      reads this`tempo, this`leadin
    {
      && (!initialized || |audio| < 2 || frames <= 0 ==>
            Silent() && workBuffer == w0
            && History == h0 && lastPosition == lastPos0 && lastPitch == lastPitch0)
      && (initialized && |audio| >= 2 && frames > 0 ==>
            && |workBuffer| == Max(|w0|, 2 * frames)
            && Interleaved(audio[0], audio[1], frames)
            && Published(pitch, positionMs, convert)
            && History == h0 + [Score(positionMs, lastPos0, pitch, lastPitch0, Min(|h0|, QualityRingSize))]
            && lastPosition == positionMs && lastPitch == pitch
            && outQuality == WindowQuality(LastN(History, QualityRingSize)))
    }

    /** A tick after the change detection (the early returns and the processing). */
    method Run(frames: int, audio: seq<seq<real>>, pitch: real, positionMs: int, convert: real -> real)
      requires Valid()
      requires |audio| >= 2 && frames > 0 ==> |audio[0]| >= frames && |audio[1]| >= frames
      modifies ring, this`ringIndex, this`ringFilled, this`lastPosition, this`lastPitch, this`History
      modifies this`workBuffer, this`outSpeed, this`outTempo, this`outPosition, this`outTimecode, this`outValid
      modifies this`outQuality
      ensures Valid() && Tracked() == old(Tracked())
      ensures Outcome(frames, audio, pitch, positionMs, convert, old(History), old(lastPosition), old(lastPitch),
                      old(workBuffer))
    {
      if !initialized {
        Silence();
        return;
      }
      if |audio| < 2 || frames <= 0 {
        Silence();
        return;
      }
      Process(frames, audio[0], audio[1], pitch, positionMs, convert);
    }

    /** One audio tick (`operator()`). `audio` holds the input channels; `pitch` and
        `positionMs` are what the timecoder reports once the tick's samples are
        submitted; `definitions` are the timecode definitions xwax can build. A change
        of settings reinitialises the timecoder first, which restarts the quality
        tracking (empty history, no previous position, zero pitch) when it succeeds;
        `h0`, `lastPos0` and `lastPitch0` are the tracking state the tick then runs from. */
    method Tick(frames: int, audio: seq<seq<real>>, pitch: real, positionMs: int,
                definitions: set<string>, convert: real -> real)
      returns (ghost h0: seq<int>, ghost lastPos0: int, ghost lastPitch0: real)
      requires Valid()
      requires |audio| >= 2 && frames > 0 ==> |audio[0]| >= frames && |audio[1]| >= frames
      modifies this`timecoder, this`initialized, this`definition, ring, this`ringIndex, this`ringFilled
      modifies this`lastPosition, this`lastPitch, this`History
      modifies this`lastVinylType, this`lastSpeed, this`lastPitchFilter
      modifies this`workBuffer, this`outSpeed, this`outTempo, this`outPosition, this`outTimecode, this`outValid
      modifies this`outQuality
      ensures Valid() && Tracked()
      ensures timecoder == if old(Tracked()) then old(timecoder)
                           else TimecoderFor(old(vinylType), old(speed), old(pitchFilter), old(sampleRate), definitions)
      ensures var reset := !old(Tracked()) && initialized;
        && h0 == (if reset then [] else old(History))
        && lastPos0 == (if reset then -1 else old(lastPosition))
        && lastPitch0 == (if reset then 0.0 else old(lastPitch))
      ensures Outcome(frames, audio, pitch, positionMs, convert, h0, lastPos0, lastPitch0, old(workBuffer))
    {
      ApplySettings(definitions);
      h0, lastPos0, lastPitch0 := History, lastPosition, lastPitch;
      ghost var settled := timecoder;
      assert settled == if old(Tracked()) then old(timecoder)
                        else TimecoderFor(old(vinylType), old(speed), old(pitchFilter), old(sampleRate), definitions);
      ghost var w0 := workBuffer;
      assert w0 == old(workBuffer);
      Run(frames, audio, pitch, positionMs, convert);
      assert timecoder == settled;
      assert Outcome(frames, audio, pitch, positionMs, convert, h0, lastPos0, lastPitch0, w0);
    }
  }

  // ---------------------------------------------------------------------------
  // Properties.

  lemma {:induction false} SumConcat(a: seq<int>, b: seq<int>)
    ensures Sum(a + b) == Sum(a) + Sum(b)
    decreases |b|
  {
    if b == [] {
      assert a + b == a;
    } else {
      SumConcat(a, b[..|b| - 1]);
      assert (a + b)[..|a + b| - 1] == a + b[..|b| - 1];
    }
  }

  /** The ring index after one more score is the next slot, wrapping at 32. */
  lemma NextSlot(i: int)
    requires 0 <= i < QualityRingSize
    ensures (i + 1) % QualityRingSize == if i + 1 < QualityRingSize then i + 1 else 0
  {
  }

  /** The index kept as the history length modulo 32 moves on with the history. */
  lemma RingIndexStep(n: nat)
    ensures (n % QualityRingSize + 1) % QualityRingSize == (n + 1) % QualityRingSize
    ensures n < QualityRingSize ==> n % QualityRingSize == n
  {
    var m, d := n % QualityRingSize, n / QualityRingSize;
    assert n == QualityRingSize * d + m;
    if m + 1 < QualityRingSize {
      assert n + 1 == QualityRingSize * d + (m + 1);
    } else {
      assert n + 1 == QualityRingSize * (d + 1);
    }
  }

  /** Storing one score at the index and moving the index on keeps the ring holding
      the last 32 scores. */
  lemma RingStep(r: seq<int>, idx: int, filled: int, h: seq<int>, q: int)
    requires RingHolds(r, idx, filled, h) && 0 <= q <= 200
    ensures var idx' := (idx + 1) % QualityRingSize;
      var filled' := Min(filled + 1, QualityRingSize);
      RingHolds(r[idx := q], idx', filled', h + [q])
  {
    RingIndexStep(|h|);
    NextSlot(idx);
    RingPush(r, idx, filled, h, q);
    assert InScoreRange(r[idx := q]);
  }

  /** Storing a score at `idx` and moving on keeps the ring, read from the new index,
      equal to the last 32 scores. */
  lemma RingPush(r: seq<int>, idx: int, filled: int, h: seq<int>, q: int)
    requires |r| == QualityRingSize && 0 <= idx < QualityRingSize && filled == Min(|h|, QualityRingSize)
    requires |h| < QualityRingSize ==> idx == |h|
    requires r[idx..filled] + r[..idx] == LastN(h, QualityRingSize)
    ensures var idx' := if idx + 1 < QualityRingSize then idx + 1 else 0;
      var filled' := Min(filled + 1, QualityRingSize);
      r[idx := q][idx'..filled'] + r[idx := q][..idx'] == LastN(h + [q], QualityRingSize)
  {
    if |h| < QualityRingSize {
      assert r[..idx] == h;
      RingPushFilling(r, h, q);
      assert LastN(h + [q], QualityRingSize) == h + [q];
    } else {
      assert filled == QualityRingSize;
      LastNPush(h, q);
      RingPushFull(r, idx, LastN(h, QualityRingSize), q);
    }
  }

  /** While the ring fills, its first |h| slots are h. */
  lemma RingPushFilling(r: seq<int>, h: seq<int>, q: int)
    requires |r| == QualityRingSize && |h| < QualityRingSize && r[..|h|] == h
    ensures var n := |h|;
      var r' := r[n := q];
      if n + 1 < QualityRingSize then r'[n + 1..n + 1] + r'[..n + 1] == h + [q]
      else r'[0..QualityRingSize] + r'[..0] == h + [q]
  {
    var n := |h|;
    var r' := r[n := q];
    assert r'[..n + 1] == h + [q];
  }

  /** Once full, storing a score drops the oldest one and appends the new one. */
  lemma RingPushFull(r: seq<int>, idx: int, window: seq<int>, q: int)
    requires |r| == QualityRingSize && 0 <= idx < QualityRingSize
    requires r[idx..] + r[..idx] == window
    ensures var r' := r[idx := q];
      if idx + 1 < QualityRingSize then r'[idx + 1..] + r'[..idx + 1] == window[1..] + [q]
      else r'[0..] + r'[..0] == window[1..] + [q]
  {
    var r' := r[idx := q];
    assert window[1..] == r[idx + 1..] + r[..idx];
    assert r'[idx + 1..] == r[idx + 1..];
    assert r'[..idx + 1] == r[..idx] + [q];
  }

  lemma LastNPush(h: seq<int>, q: int)
    requires |h| >= QualityRingSize
    ensures LastN(h + [q], QualityRingSize) == LastN(h, QualityRingSize)[1..] + [q]
  {
    assert (h + [q])[|h| + 1 - QualityRingSize..] == h[|h| - QualityRingSize + 1..] + [q];
  }

  /** The sum `std::accumulate` takes over the first `filled` slots is the sum of the
      stored scores in order: the two differ by a rotation. */
  lemma RingSum(r: seq<int>, idx: int, filled: int)
    requires 0 <= idx <= filled <= |r|
    requires filled < |r| ==> idx == filled
    ensures Sum(r[..filled]) == Sum(r[idx..filled] + r[..idx])
  {
    SumConcat(r[idx..filled], r[..idx]);
    SumConcat(r[..idx], r[idx..filled]);
    assert r[..filled] == r[..idx] + r[idx..filled];
  }

  lemma {:induction false} SumBounds(w: seq<int>, lo: int, hi: int)
    requires forall i :: 0 <= i < |w| ==> lo <= w[i] <= hi
    ensures lo * |w| <= Sum(w) <= hi * |w|
    decreases |w|
  {
    if w != [] {
      SumBounds(w[..|w| - 1], lo, hi);
      assert lo * |w| == lo * (|w| - 1) + lo;
      assert hi * |w| == hi * (|w| - 1) + hi;
    }
  }

  /** The clamp never bites: a window of scores in [0, 200] has a mean score over 200
      that is already in [0, 1]. */
  lemma QualityIsMeanScore(w: seq<int>)
    requires w != [] && InScoreRange(w)
    ensures 0.0 <= Sum(w) as real / (200.0 * |w| as real) <= 1.0
    ensures WindowQuality(w) == Sum(w) as real / (200.0 * |w| as real)
  {
    SumBounds(w, 0, 200);
    var n := |w| as real;
    assert 0.0 <= Sum(w) as real <= 200.0 * n;
  }

  /** A window of equal scores v publishes v / 200: 32 perfect ticks publish 1.0 and
      32 ticks at 100 publish 0.5. */
  lemma ConstantWindow(w: seq<int>, v: int)
    requires w != [] && 0 <= v <= 200
    requires forall i :: 0 <= i < |w| ==> w[i] == v
    ensures WindowQuality(w) == v as real / 200.0
  {
    SumBounds(w, v, v);
    assert Sum(w) == v * |w|;
    assert InScoreRange(w);
    QualityIsMeanScore(w);
    var n := |w| as real;
    assert Sum(w) as real == v as real * n;
  }

  /** The quality forgets: once 32 scores have been stored after some history, the
      published quality depends on those 32 alone. */
  lemma WindowForgets(h: seq<int>, recent: seq<int>)
    requires |recent| == QualityRingSize
    ensures LastN(h + recent, QualityRingSize) == recent
  {
    assert (h + recent)[|h|..] == recent;
  }

  /** The pitch score is the source's test on the stability ratio |pitch / change|. */
  lemma PitchQualityIsStability(pitch: real, last: real, filled: int)
    requires filled > 0 && pitch != last
    ensures var stability := Abs(pitch / (pitch - last));
      && (PitchQuality(pitch, last, filled) == 0 <==> stability < 3.0)
      && (PitchQuality(pitch, last, filled) == 100 <==> stability > 6.0)
      && (PitchQuality(pitch, last, filled) == 75 <==> 3.0 <= stability <= 6.0)
  {
    var d := pitch - last;
    var stability := Abs(pitch / d);
    assert stability * Abs(d) == Abs(pitch);
    RatioComparison(Abs(pitch), Abs(d), stability, 3.0);
    RatioComparison(Abs(pitch), Abs(d), stability, 6.0);
  }

  /** With p = s * a for a positive a, comparing s with c is comparing p with c * a. */
  lemma RatioComparison(p: real, a: real, s: real, c: real)
    requires a > 0.0 && s * a == p
    ensures s < c <==> p < c * a
    ensures s > c <==> p > c * a
  {
    if s < c {
      assert (c - s) * a > 0.0;
    }
    if p < c * a {
      assert (c - s) * a > 0.0;
    }
    if s > c {
      assert (s - c) * a > 0.0;
    }
    if p > c * a {
      assert (s - c) * a > 0.0;
    }
  }

  /** Only -1 scores 0 for position; any other negative value is scored like a position. */
  lemma OnlyMinusOneIsNoPosition(last: int)
    ensures PositionQuality(-1, last) == 0
    ensures PositionQuality(-2, -1) == 100
  {
  }

  /** The first located tick after a reset scores 100 for position, and 0 for pitch. */
  lemma FirstTickAfterReset(pos: int, pitch: real)
    requires pos >= 0
    ensures Score(pos, -1, pitch, 0.0, 0) == 100
  {
  }

  /** A pitch that did not change at all scores 0, as does a pitch that changed by more
      than a third of itself. */
  lemma UnchangedPitchScoresZero(pitch: real, filled: int)
    ensures PitchQuality(pitch, pitch, filled) == 0
    ensures filled > 0 ==> PitchQuality(1.0, 0.5, filled) == 0 && PitchQuality(1.0, 0.9, filled) == 100
  {
  }

  lemma TruncMonotone(x: real, y: real)
    requires x <= y
    ensures Trunc(x) <= Trunc(y)
  {
  }

  /** The sample conversion is monotone, saturates at full scale and maps +-1 to +-32767. */
  lemma ToShortShape(x: real, y: real)
    ensures x <= y ==> ToShort(x) <= ToShort(y)
    ensures x * SampleScale >= 32767.0 ==> ToShort(x) == 32767
    ensures x * SampleScale <= -32768.0 ==> ToShort(x) == -32768
    ensures ToShort(1.0) == 32767 && ToShort(-1.0) == -32767 && ToShort(0.0) == 0
  {
    if x <= y {
      TruncMonotone(Clamp(x * SampleScale, -32768.0, 32767.0), Clamp(y * SampleScale, -32768.0, 32767.0));
    }
  }

  /** Every vinyl type names its own definition, and an index outside the table falls
      back to serato_2a. */
  lemma TimecodeNamesDistinct(v: VinylType, w: VinylType, idx: int)
    ensures TimecodeName(VinylIndex(v)) == TimecodeName(VinylIndex(w)) ==> v == w
    ensures TimecodeName(VinylIndex(Serato2a)) == "serato_2a"
    ensures TimecodeName(VinylIndex(PioneerB)) == "pioneer_b"
    ensures (idx < 0 || idx >= 12) ==> TimecodeName(idx) == "serato_2a"
  {
  }
}
