/** The parts of libltc's interface that the LTC engines touch. The codec itself
    (biphase-mark coding of SMPTE ST 12-1 frames) is not modelled: the decode engine
    receives already-decoded frames and the generate engine receives the samples the
    encoder produces for each byte (see LtcDecode and LtcGenerate). */
module LibLtc {

  /** libltc's `LTC_TV_STANDARD`, in declaration order (525/60, 625/50, 1125/60, film 24). */
  datatype TvStandard = Tv525_60 | Tv625_50 | Tv1125_60 | TvFilm24

  /** The 2-bit and 4-bit bit-fields of an LTC frame. */
  type Bits2 = x: int | 0 <= x < 4
  type Bits4 = x: int | 0 <= x < 16

  /** The fields of libltc's `LTCFrame` that the engines read: the drop-frame bit
      and the BCD digits of the frame number. */
  datatype LtcFrame = LtcFrame(dfbit: bool, frameTens: Bits2, frameUnits: Bits4)

  /** The time fields of libltc's `SMPTETimecode` (each an `unsigned char` there). */
  datatype Smpte = Smpte(hours: nat, mins: nat, secs: nat, frame: nat)

  /** libltc's `LTCFrameExt` as `ltc_decoder_read` hands it out. `time` is what
      `ltc_frame_to_time` makes of `ltc`; the codec supplies it. */
  datatype LtcFrameExt = LtcFrameExt(ltc: LtcFrame, time: Smpte, reverse: bool, volume: real)

  /** The zero-initialised `LTCFrameExt{}`. */
  const EmptyFrame := LtcFrameExt(LtcFrame(false, 0, 0), Smpte(0, 0, 0, 0), false, 0.0)

  /** Flicks, the time unit of the host's transport: 705600000 per second. */
  const FlicksPerSecond: real := 705600000.0

  /** `ltcsnd_sample_t`: an unsigned 8-bit audio sample. */
  type Sample = x: int | 0 <= x < 256
}
