/** The LTC decode engine (`LTCInput`): feeds each audio block to the libltc decoder,
    keeps the newest decoded frame, classifies its frame rate, converts its time to
    the selected unit and times the `valid` flag out after 500 ms without a frame. */
module LtcDecode {
  import opened CNumeric
  import opened LibLtc

  /** The "Framerate" combobox. */
  datatype FrameRate = Fps24 | Fps25 | Fps2997 | Fps30 | Auto

  /** The "Output Format" combobox. */
  datatype OutputFormat = Seconds | Milliseconds | Microseconds | Nanoseconds | Flicks

  /** Milliseconds without a decoded frame after which `valid` is cleared. */
  const TimeoutMs := 500

  /** The rate a TV standard runs at (`get_frame_rate_from_standard`). */
  function StandardFps(standard: TvStandard, dropFrame: bool): (fps: real)
    ensures 24.0 <= fps <= 30.0
  {
    match standard
    case Tv525_60 | Tv1125_60 => if dropFrame then 29.97 else 30.0
    case Tv625_50 => 25.0
    case TvFilm24 => 24.0
  }

  /** The frame number an LTC frame carries in BCD. */
  function FrameNumber(f: LtcFrame): (n: int)
    ensures 0 <= n <= 45
  {
    f.frameTens * 10 + f.frameUnits
  }

  /** The TV standard of a frame (`detect_standard`): the configured one, or a guess
      from the drop-frame bit and the frame number. */
  function DetectStandard(framerate: FrameRate, f: LtcFrame): (standard: TvStandard)
    ensures standard != Tv1125_60
  {
    if framerate != Auto then
      match framerate
      case Fps24 => TvFilm24
      case Fps25 => Tv625_50
      case _ => Tv525_60
    else if f.dfbit then Tv525_60
    else if FrameNumber(f) >= 25 then Tv525_60
    else if FrameNumber(f) >= 24 then Tv625_50
    else TvFilm24
  }

  /** The rate named by an explicit setting (`get_configured_fps`); Auto gives 30. */
  function ConfiguredFps(framerate: FrameRate): (fps: real)
    ensures 24.0 <= fps <= 30.0
  {
    match framerate
    case Fps24 => 24.0
    case Fps25 => 25.0
    case Fps2997 => 29.97
    case Fps30 => 30.0
    case Auto => 30.0
  }

  /** The rate published for a decoded frame: the detected standard's rate, replaced
      by the configured one unless the setting is Auto. */
  function PublishedFps(framerate: FrameRate, f: LtcFrame): (fps: real)
    ensures 24.0 <= fps <= 30.0
  {
    if framerate != Auto then ConfiguredFps(framerate)
    else StandardFps(DetectStandard(framerate, f), f.dfbit)
  }

  /** Seconds since midnight of a timecode plus the configured offset (`to_seconds`). */
  function ToSeconds(tc: Smpte, fps: real, offset: int): (seconds: real)
    requires fps > 0.0
    ensures seconds >= offset as real
  {
    tc.hours as real * 3600.0 + tc.mins as real * 60.0 + tc.secs as real
      + tc.frame as real / fps + offset as real
  }

  /** How many units of a format make one second. */
  function UnitsPerSecond(format: OutputFormat): (k: real)
    ensures k >= 1.0
  {
    match format
    case Seconds => 1.0
    case Milliseconds => 1000.0
    case Microseconds => 1000000.0
    case Nanoseconds => 1000000000.0
    case Flicks => FlicksPerSecond
  }

  /** A time in seconds expressed in the selected unit (`convert_output`). */
  function ConvertOutput(format: OutputFormat, seconds: real): (r: real)
    ensures r == seconds * UnitsPerSecond(format)
  {
    match format
    case Seconds => seconds
    case Milliseconds => seconds * 1000.0
    case Microseconds => seconds * 1e6
    case Nanoseconds => seconds * 1e9
    case Flicks => seconds * FlicksPerSecond
  }

  /** The libltc decoder handle: the construction hints and the queue of frames it
      has decoded and not yet handed out. */
  datatype Decoder = Decoder(audioFramesPerVideoFrame: int, queueSize: int, queue: seq<LtcFrameExt>)

  /** `ltc_decoder_read`: hands out the oldest queued frame, if any. */
  function DecoderRead(d: Decoder): (r: (Option<LtcFrameExt>, Decoder))
    ensures r.0.None? <==> d.queue == []
    ensures r.0.Some? ==> [r.0.value] + r.1.queue == d.queue
    ensures r.0.None? ==> r.1 == d
    ensures r.1.audioFramesPerVideoFrame == d.audioFramesPerVideoFrame && r.1.queueSize == d.queueSize
  {
    if d.queue == [] then (None, d) else (Some(d.queue[0]), d.(queue := d.queue[1..]))
  }

  class LtcInput {
    // Controls.
    var offset: int
    var format: OutputFormat
    var framerate: FrameRate
    var queueSize: int
    // The host setup.
    var sampleRate: real
    // Output ports.
    var timecode: real
    var valid: bool
    var frameRate: real
    var dropFrame: bool
    var reverse: bool
    var volume: real
    // Engine state.
    var decoder: Option<Decoder>
    var samplePosition: int
    var lastFrame: LtcFrameExt
    var lastValidTime: int

    /** The engine as declared: default controls and outputs, no decoder yet. */
    constructor ()
      ensures offset == 0 && format == Seconds && framerate == Auto && queueSize == 32
      ensures sampleRate == 0.0
      ensures timecode == 0.0 && !valid && frameRate == 30.0 && !dropFrame && !reverse && volume == -96.0
      ensures decoder == None && samplePosition == 0 && lastFrame == EmptyFrame && lastValidTime == 0
    {
      offset, format, framerate, queueSize := 0, Seconds, Auto, 32;
      sampleRate := 0.0;
      timecode, valid, frameRate, dropFrame, reverse, volume := 0.0, false, 30.0, false, false, -96.0;
      decoder, samplePosition, lastFrame, lastValidTime := None, 0, EmptyFrame, 0;
    }

    /** `reinit_decoder`: drops any existing decoder; a sample rate above 1 gets a new,
        empty one, hinted with trunc(rate / 30) audio frames per video frame. */
    method ReinitDecoder(now: int)
      modifies this`decoder, this`samplePosition, this`lastValidTime
      ensures sampleRate <= 1.0 ==> decoder == None
      ensures sampleRate <= 1.0 ==> samplePosition == old(samplePosition) && lastValidTime == old(lastValidTime)
      ensures sampleRate > 1.0 ==> decoder == Some(Decoder(Trunc(sampleRate / 30.0), queueSize, []))
      ensures sampleRate > 1.0 ==> samplePosition == 0 && lastValidTime == now
    {
      if decoder.Some? {
        decoder := None;
      }
      if sampleRate <= 1.0 {
        return;
      }
      var apv := Trunc(sampleRate / 30.0);
      decoder := Some(Decoder(apv, queueSize, []));
      samplePosition := 0;
      lastValidTime := now;
    }

    /** `prepare`: records the sample rate and rebuilds the decoder. */
    method Prepare(rate: real, now: int)
      modifies this`sampleRate, this`decoder, this`samplePosition, this`lastValidTime
      ensures sampleRate == rate
      ensures rate <= 1.0 ==> decoder == None
      ensures rate <= 1.0 ==> samplePosition == old(samplePosition) && lastValidTime == old(lastValidTime)
      ensures rate > 1.0 ==> decoder == Some(Decoder(Trunc(rate / 30.0), queueSize, []))
      ensures rate > 1.0 ==> samplePosition == 0 && lastValidTime == now
    {
      sampleRate := rate;
      ReinitDecoder(now);
    }

    /** The "Queue Size" hook: a new queue depth rebuilds the decoder. */
    method SetQueueSize(size: int, now: int)
      modifies this`queueSize, this`decoder, this`samplePosition, this`lastValidTime
      ensures queueSize == size
      ensures sampleRate <= 1.0 ==> decoder == None
      ensures sampleRate <= 1.0 ==> samplePosition == old(samplePosition) && lastValidTime == old(lastValidTime)
      ensures sampleRate > 1.0 ==> decoder == Some(Decoder(Trunc(sampleRate / 30.0), size, []))
      ensures sampleRate > 1.0 ==> samplePosition == 0 && lastValidTime == now
    {
      queueSize := size;
      ReinitDecoder(now);
    }

    /** `check_timeout`: clears `valid` once more than 500 ms passed since the last frame. */
    method CheckTimeout(now: int)
      modifies this`valid
      ensures valid == (old(valid) && now - lastValidTime <= TimeoutMs)
    {
      var elapsed := now - lastValidTime;
      if elapsed > TimeoutMs {
        valid := false;
      }
    }

    /** The drain loop: reads every queued frame, keeping only the last one read. */
    method DrainQueue() returns (gotFrame: bool)
      requires decoder.Some?
      modifies this`decoder, this`lastFrame
      ensures decoder == Some(old(decoder).value.(queue := []))
      ensures gotFrame <==> old(decoder).value.queue != []
      ensures gotFrame ==> lastFrame == old(decoder).value.queue[|old(decoder).value.queue| - 1]
      ensures !gotFrame ==> lastFrame == old(lastFrame)
    {
      var dec := decoder.value;
      ghost var pending := dec.queue;
      gotFrame := false;
      var next := DecoderRead(dec);
      while next.0.Some?
        invariant next == DecoderRead(dec)
        invariant dec == old(decoder).value.(queue := dec.queue)
        invariant |dec.queue| <= |pending| && pending[|pending| - |dec.queue|..] == dec.queue
        invariant gotFrame <==> |dec.queue| < |pending|
        invariant gotFrame ==> lastFrame == pending[|pending| - |dec.queue| - 1]
        invariant !gotFrame ==> lastFrame == old(lastFrame)
        decreases |dec.queue|
      {
        gotFrame := true;
        lastFrame := next.0.value;
        dec := next.1;
        next := DecoderRead(dec);
      }
      decoder := Some(dec);
    }

    /** Publishes `lastFrame`: its rate, flags, volume and time in the selected unit. */
    method PublishFrame(now: int)
      modifies this`lastValidTime, this`timecode, this`valid, this`frameRate
      modifies this`dropFrame, this`reverse, this`volume
      ensures lastValidTime == now && valid
      ensures frameRate == PublishedFps(framerate, lastFrame.ltc)
      ensures dropFrame == lastFrame.ltc.dfbit && reverse == lastFrame.reverse && volume == lastFrame.volume
      ensures timecode == ConvertOutput(format, ToSeconds(lastFrame.time, frameRate, offset))
    {
      lastValidTime := now;
      var tc := lastFrame.time;
      var standard := DetectStandard(framerate, lastFrame.ltc);
      var isDropFrame := lastFrame.ltc.dfbit;
      var fps := StandardFps(standard, isDropFrame);
      if framerate != Auto {
        fps := ConfiguredFps(framerate);
      }
      frameRate := fps;
      dropFrame := isDropFrame;
      reverse := lastFrame.reverse;
      volume := lastFrame.volume;
      var seconds := ToSeconds(tc, fps, offset);
      timecode := ConvertOutput(format, seconds);
      valid := true;
    }

    /** One audio tick (`operator()`). `decoded` stands for the frames libltc queues
        while it is fed this block of `frames` samples; `now` is the clock reading. */
    method Tick(frames: int, decoded: seq<LtcFrameExt>, now: int)
      modifies this`decoder, this`samplePosition, this`lastFrame, this`lastValidTime
      modifies this`timecode, this`valid, this`frameRate, this`dropFrame, this`reverse, this`volume
      // No decoder or an empty block: nothing happens, not even the timeout check.
      ensures old(decoder).None? || frames <= 0 ==>
        decoder == old(decoder) && samplePosition == old(samplePosition)
        && lastFrame == old(lastFrame) && lastValidTime == old(lastValidTime)
        && timecode == old(timecode) && valid == old(valid) && frameRate == old(frameRate)
        && dropFrame == old(dropFrame) && reverse == old(reverse) && volume == old(volume)
      // Otherwise the block is consumed and the whole queue drained.
      ensures old(decoder).Some? && frames > 0 ==>
        samplePosition == old(samplePosition) + frames
        && decoder == Some(old(decoder).value.(queue := []))
      // Nothing decoded: only the timeout may touch an output.
      ensures old(decoder).Some? && frames > 0 && old(decoder).value.queue + decoded == [] ==>
        lastFrame == old(lastFrame) && lastValidTime == old(lastValidTime)
        && timecode == old(timecode) && frameRate == old(frameRate)
        && dropFrame == old(dropFrame) && reverse == old(reverse) && volume == old(volume)
        && valid == (old(valid) && now - old(lastValidTime) <= TimeoutMs)
      // A frame decoded: the newest one is published and the engine is valid.
      ensures old(decoder).Some? && frames > 0 && old(decoder).value.queue + decoded != [] ==>
        var pending := old(decoder).value.queue + decoded;
        lastFrame == pending[|pending| - 1] && lastValidTime == now && valid
        && frameRate == PublishedFps(framerate, lastFrame.ltc)
        && dropFrame == lastFrame.ltc.dfbit && reverse == lastFrame.reverse && volume == lastFrame.volume
        && timecode == ConvertOutput(format, ToSeconds(lastFrame.time, frameRate, offset))
    {
      if decoder.None? {
        return;
      }
      if frames <= 0 {
        return;
      }
      // ltc_decoder_write_double
      decoder := Some(decoder.value.(queue := decoder.value.queue + decoded));
      samplePosition := samplePosition + frames;

      var gotFrame := DrainQueue();
      if gotFrame {
        PublishFrame(now);
      }
      CheckTimeout(now);
    }
  }


  // ---------------------------------------------------------------------------
  // Properties of the classification and conversion functions.

  /** An explicit setting fixes the standard (24 -> film, 25 -> 625/50, 29.97 and 30 ->
      525/60) and the published rate is the configured one, whatever the frame says. */
  lemma ExplicitSettingWins(framerate: FrameRate, f: LtcFrame)
    requires framerate != Auto
    ensures DetectStandard(framerate, f) == (match framerate
                                             case Fps24 => TvFilm24
                                             case Fps25 => Tv625_50
                                             case _ => Tv525_60)
    ensures PublishedFps(framerate, f) == ConfiguredFps(framerate)
    ensures PublishedFps(framerate, f) == StandardFps(DetectStandard(framerate, f), framerate == Fps2997)
  {
  }

  /** Auto detection with the drop-frame bit set: 525/60 at 29.97, whatever the frame number. */
  lemma AutoDropFrame(f: LtcFrame)
    requires f.dfbit
    ensures DetectStandard(Auto, f) == Tv525_60
    ensures PublishedFps(Auto, f) == 29.97
  {
  }

  /** Auto detection without the drop-frame bit picks the slowest of 24, 25 and 30 fps
      under which the frame number observed is a legal frame index. */
  lemma {:induction false} AutoPicksSlowestRate(f: LtcFrame)
    requires !f.dfbit
    ensures var fps := PublishedFps(Auto, f);
      && (fps == 24.0 || fps == 25.0 || fps == 30.0)
      && (FrameNumber(f) < 30 ==> (FrameNumber(f) as real) < fps)
      && (fps == 25.0 <==> FrameNumber(f) == 24)
      && (fps == 30.0 <==> FrameNumber(f) >= 25)
      && (fps == 24.0 <==> FrameNumber(f) < 24)
  {
  }

  /** The worked cases: frame 26 gives 30 fps, frame 24 gives 25, frame 10 gives 24. */
  lemma AutoExamples()
    ensures PublishedFps(Auto, LtcFrame(false, 2, 6)) == 30.0
    ensures PublishedFps(Auto, LtcFrame(false, 2, 4)) == 25.0
    ensures PublishedFps(Auto, LtcFrame(false, 1, 0)) == 24.0
    ensures PublishedFps(Auto, LtcFrame(true, 1, 0)) == 29.97
  {
  }

  /** The rate of a standard: 29.97 exactly for drop-frame 525/60 or 1125/60. */
  lemma StandardFpsCases(standard: TvStandard, dropFrame: bool)
    ensures StandardFps(standard, dropFrame) == 29.97 <==>
              dropFrame && (standard == Tv525_60 || standard == Tv1125_60)
    ensures StandardFps(standard, dropFrame) == 30.0 <==>
              !dropFrame && (standard == Tv525_60 || standard == Tv1125_60)
    ensures StandardFps(standard, dropFrame) == 25.0 <==> standard == Tv625_50
    ensures StandardFps(standard, dropFrame) == 24.0 <==> standard == TvFilm24
  {
  }

  /** Conversion multiplies by the unit's scale, so it is linear and reversible. */
  lemma ConvertIsLinear(format: OutputFormat, a: real, b: real, k: real)
    ensures ConvertOutput(format, a) == a * UnitsPerSecond(format)
    ensures ConvertOutput(format, a + b) == ConvertOutput(format, a) + ConvertOutput(format, b)
    ensures ConvertOutput(format, k * a) == k * ConvertOutput(format, a)
    ensures ConvertOutput(format, a) / UnitsPerSecond(format) == a
  {
  }

  lemma ConvertExamples()
    ensures ConvertOutput(Milliseconds, 2.0) == 2000.0
    ensures ConvertOutput(Flicks, 1.0) == 705600000.0
  {
  }

  /** Each further frame within a second adds one frame period; each offset second adds one. */
  lemma ToSecondsSteps(tc: Smpte, fps: real, offset: int)
    requires fps > 0.0
    ensures ToSeconds(tc.(frame := tc.frame + 1), fps, offset) == ToSeconds(tc, fps, offset) + 1.0 / fps
    ensures ToSeconds(tc, fps, offset + 1) == ToSeconds(tc, fps, offset) + 1.0
    ensures ToSeconds(tc.(secs := tc.secs + 1), fps, offset) == ToSeconds(tc, fps, offset + 1)
    ensures ToSeconds(tc.(mins := tc.mins + 1), fps, offset) == ToSeconds(tc, fps, offset + 60)
    ensures ToSeconds(tc.(hours := tc.hours + 1), fps, offset) == ToSeconds(tc, fps, offset + 3600)
  {
  }

  /** A frame at 00:00:10:00 with no offset, decoded with the 25 fps setting,
      reads 10 s at 25 fps. */
  lemma TenSecondsAt25()
    ensures var f := LtcFrame(false, 0, 0);
      PublishedFps(Fps25, f) == 25.0
      && ConvertOutput(Seconds, ToSeconds(Smpte(0, 0, 10, 0), PublishedFps(Fps25, f), 0)) == 10.0
  {
  }
}
