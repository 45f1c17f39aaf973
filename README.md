# score-addon-ltc timecode engines in Dafny

This project models the three audio engines of the ossia score LTC add-on and
proves properties of the model. Each engine runs once per audio tick.

- **LTCInput** (module `LtcDecode`, `ltc_input.dfy`) decodes Linear Timecode.
  - It feeds each block to a libltc decoder and drains the decoder's queue, keeping only the newest frame.
  - It classifies the frame's TV standard and frame rate, either from the "Framerate" setting or from the drop-frame bit and the BCD frame number.
  - It turns H:M:S:F plus an offset into seconds, then scales them to the selected unit (s, ms, µs, ns, flicks).
  - `valid` is cleared once more than 500 ms pass without a frame.
- **LTCGenerator** (module `LtcGenerate`, `ltc_generator.dfy`) generates LTC.
  - It maps the TV standard to a frame rate.
  - It loads the time of day of the transport position plus the offset into a libltc encoder, using C truncating division and `uint8_t` casts.
  - It streams the encoder's samples through a `boost::circular_buffer` (class `CircularBuffer`). One byte of the 10-byte frame is encoded only when the FIFO runs dry, and one sample is popped per output frame.
- **XWaxDVS** (module `XWax`, `xwax.dfy`) decodes DVS timecode.
  - It chooses an xwax timecode definition, falling back to serato_2a, and reinitialises the timecoder when the vinyl type, speed or pitch filter changes.
  - It converts stereo audio to interleaved 16-bit samples in a work buffer that only grows.
  - It publishes speed, tempo and position.
  - It scores each tick by position and pitch heuristics in a 32-slot ring, and publishes the clamped mean of the ring as the signal quality.

`cnumeric.dfy` (module `CNumeric`) writes out the C++ numeric conversions: truncation toward zero, `std::div`, `uint8_t` casts and `std::clamp`. `libltc.dfy` (module `LibLtc`) holds the libltc types the engines touch.

The codecs are not modelled; they are interfaces.
- The LTC decoder is a queue of decoded frames. Each tick receives the frames libltc queues while it is fed the block.
- The LTC encoder is a datatype of two functions: the buffer size it allocates, and the samples it yields for one byte. `Sound` states what the engine relies on: every encoded byte yields between one sample and one buffer's worth.
- The xwax timecoder is stood in for as follows:
  - each tick receives the pitch and the position in milliseconds that `timecoder_get_pitch` and `timecoder_get_position` report;
  - `definitions` is the set of names `timecoder_find_definition` succeeds on;
  - `convert` is the engine's `convert_output`.

The state lives in classes: `LtcDecode.LtcInput`, `LtcGenerate.LtcGenerator` with its `CircularBuffer`, and `XWax.XWaxDvs` with its `int` ring array. Their methods are proved against specification functions, whose properties are proved as lemmas:
- The generator's tick writes exactly `frames` levels. They are the FIFO's contents followed by the samples of the bytes encoded meanwhile, in order (`Emitted`).
- The generator encodes a byte only when the FIFO is empty. Its byte index stays in 0..9, and the encoder time advances once per 10 bytes.
- The DVS engine keeps a ghost `History` of the scores stored since the last reset. The ring, read from its index, always equals the last (up to) 32 scores, and the published quality is `WindowQuality` of that window.

Behaviours of the code worth knowing:
- The first located DVS tick after a reset scores 100 for position: the previous position is -1, which the code scores as a first position (`XWax.FirstTickAfterReset`).
- Only a reported position of exactly -1 scores 0 for position. Any other negative position is published as invalid but scored like a position (`XWax.OnlyMinusOneIsNoPosition`).
- Under Auto, a frame whose frame number is below 24 is classified as 24 fps, so a 25 fps frame at 00:00:10:00 reads 25 fps and 10 s only with the explicit 25 fps setting (`LtcDecode.AutoPicksSlowestRate`, `LtcDecode.TenSecondsAt25`).
- The generator does not wrap a negative transport time plus offset into the day: the truncating division leaves negative fields, which the `uint8_t` casts turn into large values (`LtcGenerate.NegativeTotalWraps`).

## Model

| member | source | states |
|---|---|---|
| CNumeric.Trunc | LTC/LTC.cpp:36 | conversion of a double to an integer truncates toward zero: the result keeps the sign and lies within 1 of x, on the zero side |
| CNumeric.Quot | LTC/LTC.cpp:37-42 | `std::div` quotient: the remainder a - d*q is in [0, d) for a >= 0 and in (-d, 0] for a < 0 |
| CNumeric.Uint8 | LTC/LTC.cpp:50-52 | a `uint8_t` cast gives a value in 0..255 congruent to x modulo 256 |
| CNumeric.Clamp | LTC/XWax.cpp:195-196 | `std::clamp` gives lo below the range, hi above it and x itself within it |
| LtcDecode.StandardFps | LTC/LTCInput.hpp:114-128 | the rate of every standard lies in [24, 30] |
| LtcDecode.StandardFpsCases | LTC/LTCInput.hpp:114-128 | 29.97 exactly for drop-frame 525/60 or 1125/60; 30 exactly for non-drop 525/60 or 1125/60; 25 exactly for 625/50; 24 exactly for film |
| LtcDecode.FrameNumber | LTC/LTCInput.hpp:156 | the BCD frame number tens*10+units lies in 0..45 |
| LtcDecode.ConfiguredFps | LTC/LTCInput.hpp:165-181 | the configured rate lies in [24, 30] |
| LtcDecode.PublishedFps | LTC/LTCInput.hpp:261-268 | the published rate lies in [24, 30] |
| LtcDecode.DetectStandard | LTC/LTCInput.hpp:131-163 | the standard of a frame; its explicit and Auto cases are stated by the three lemmas below, and it lies behind `PublishedFps` |
| LtcDecode.ExplicitSettingWins | LTC/LTCInput.hpp:133-146 | a non-Auto setting maps 24 to film, 25 to 625/50 and 29.97/30 to 525/60, and the published rate is the configured one whatever the frame carries |
| LtcDecode.AutoDropFrame | LTC/LTCInput.hpp:152-153 | under Auto a set drop-frame bit gives 525/60 and 29.97 fps whatever the frame number |
| LtcDecode.AutoPicksSlowestRate | LTC/LTCInput.hpp:155-162 | under Auto without drop-frame: 30 fps iff frame >= 25, 25 fps iff frame == 24, 24 fps iff frame < 24, the slowest of the three rates under which the observed frame number is legal |
| LtcDecode.AutoExamples | LTC/LTCInput.hpp:152-162 | frame 26 gives 30 fps, frame 24 gives 25, frame 10 gives 24, and drop-frame gives 29.97 |
| LtcDecode.UnitsPerSecond | LTC/LTCInput.hpp:190-207 | each unit's scale is at least 1 |
| LtcDecode.ConvertOutput | LTC/LTCInput.hpp:190-207 | a time in the selected unit; `ConvertIsLinear` states that it is multiplication by the unit's scale |
| LtcDecode.ConvertIsLinear | LTC/LTCInput.hpp:190-207 | conversion multiplies by the unit's scale, so it is additive, homogeneous and undone by dividing by the scale |
| LtcDecode.ConvertExamples | LTC/LTCInput.hpp:196-203 | 2 s is 2000 ms and 1 s is 705600000 flicks |
| LtcDecode.ToSeconds | LTC/LTCInput.hpp:183-188 | seconds of a timecode plus the offset; its weights are stated by `ToSecondsSteps` and `TenSecondsAt25` |
| LtcDecode.ToSecondsSteps | LTC/LTCInput.hpp:183-188 | one more frame adds 1/fps, one more second, minute or hour adds 1, 60 or 3600 s, like the same amount of offset |
| LtcDecode.TenSecondsAt25 | LTC/LTCInput.hpp:183-188 | 00:00:10:00 with offset 0 under the 25 fps setting reads 25 fps and 10 s |
| LtcDecode.DecoderRead | LTC/LTCInput.hpp:246 | `ltc_decoder_read` hands out nothing exactly when the queue is empty, and otherwise the oldest frame, leaving the rest queued |
| LtcDecode.LtcInput.constructor | LTC/LTCInput.hpp:50-75 | the declared defaults: offset 0, Seconds, Auto, queue size 32, timecode 0, invalid, 30 fps, volume -96, no decoder |
| LtcDecode.LtcInput.ReinitDecoder | LTC/LTCInput.hpp:85-102 | any decoder is dropped; a rate <= 1 leaves none and keeps position and clock; otherwise a new empty decoder hinted with trunc(rate/30) and the queue size, position 0 and last-valid time now |
| LtcDecode.LtcInput.Prepare | LTC/LTCInput.hpp:79-83 | records the rate, then the decoder is rebuilt as above |
| LtcDecode.LtcInput.SetQueueSize | LTC/LTCInput.hpp:61-64 | a new queue size rebuilds the decoder with that size |
| LtcDecode.LtcInput.CheckTimeout | LTC/LTCInput.hpp:209-221 | `valid` stays true iff it was true and at most 500 ms passed since the last frame |
| LtcDecode.LtcInput.DrainQueue | LTC/LTCInput.hpp:242-250 | empties the queue, reports whether it held a frame, and keeps exactly the last frame read |
| LtcDecode.LtcInput.PublishFrame | LTC/LTCInput.hpp:252-280 | stamps now, sets valid, publishes the classified rate, the flags and volume, and the frame's time plus offset in the selected unit |
| LtcDecode.LtcInput.Tick | LTC/LTCInput.hpp:224-284 | no decoder or no frames: nothing changes; otherwise the position grows by exactly `frames`, the queue is drained, and either the newest frame is published with valid set or only the timeout may clear `valid` |
| LtcGenerate.CircularBuffer.constructor | LTC/LTC.cpp:57 | an empty buffer of the requested capacity |
| LtcGenerate.CircularBuffer.Empty | LTC/LTC.cpp:72 | true exactly when the buffer holds nothing |
| LtcGenerate.CircularBuffer.PushBack | LTC/LTC.cpp:83-84 | appends at the back; a full buffer drops its oldest sample; a capacity-0 buffer stays empty |
| LtcGenerate.CircularBuffer.Front | LTC/LTC.cpp:87 | the oldest sample |
| LtcGenerate.CircularBuffer.PopFront | LTC/LTC.cpp:88 | removes exactly the oldest sample |
| LtcGenerate.GeneratorFps | LTC/LTC.cpp:13-26 | the encoder's rate for a standard, characterised by `GeneratorFpsValues` |
| LtcGenerate.GeneratorFpsValues | LTC/LTC.cpp:13-26 | the encoder runs at 30 fps exactly for 525/60 and 1125/60, at 25 exactly for 625/50, at 24 exactly for film |
| LtcGenerate.StartSeconds | LTC/LTC.cpp:34-36 | trunc(flicks / 705600000 + offset), through `CNumeric.Trunc` |
| LtcGenerate.TimeOfDay | LTC/LTC.cpp:37-53 | the SMPTE time loaded for a total; `TimeOfDayRecomposes` and `NegativeTotalWraps` state it |
| LtcGenerate.TimeOfDayRecomposes | LTC/LTC.cpp:33-53 | for a non-negative total, hours < 24, minutes < 60, seconds < 60, frame 0, and 3600h + 60m + s equals total mod 86400 |
| LtcGenerate.NegativeTotalWraps | LTC/LTC.cpp:37-52 | a negative total gives truncated negative fields cast to `uint8_t` (-1 s loads 00:00:255) |
| LtcGenerate.Level | LTC/LTC.cpp:89 | an 8-bit sample becomes a level in [-1, 128/127] |
| LtcGenerate.LevelPoints | LTC/LTC.cpp:89 | 0, 127 and 254 map to -1, 0 and 1, and the mapping is strictly increasing |
| LtcGenerate.OneAdvancePerTenBytes | LTC/LTC.cpp:74-79 | the encoder time advances exactly once per 10 encoded bytes, (b+k)/10 times for k bytes from index b, whatever the tempo |
| LtcGenerate.EmittedPrefixes | LTC/LTC.cpp:74-84 | encoding more bytes only appends: the samples of the first j bytes (`Emitted`, in encoding order) are a prefix of those of the first k ≥ j |
| LtcGenerate.EmittedAtLeastOnePerByte | LTC/LTC.cpp:72-85 | k encoded bytes yield between k samples and k buffers' worth, so the refill loop always makes progress |
| LtcGenerate.StreamAdvances | LTC/LTC.cpp:72-89 | one pass of the sample loop takes the stream's next sample in FIFO order, leaves the rest of the stream in the FIFO, and encodes only once the stream is exhausted |
| LtcGenerate.LtcGenerator.constructor | LTC/LTC.hpp:52-58 | offset 0, the first standard, no encoder, byte index 0, flicks 0, empty buffer |
| LtcGenerate.LtcGenerator.Update | LTC/LTC.cpp:11-58 | the encoder is configured for the standard's rate and loaded with the time of day of trunc(flicks/705600000 + offset); an existing encoder is reinitialised, never created twice; the FIFO is replaced by an empty one of 16 codec buffers; the byte index is kept |
| LtcGenerate.LtcGenerator.Prepare | LTC/LTC.cpp:5-9 | records the sample rate, then updates as above: the full encoder record and an empty FIFO of 16 buffers, every other control and the flicks kept |
| LtcGenerate.LtcGenerator.SetOffset | LTC/LTC.hpp:22-25 | a new offset updates: the full encoder record for the kept standard, rate and flicks with the new offset, and an empty FIFO |
| LtcGenerate.LtcGenerator.SetRate | LTC/LTC.hpp:27-37 | a new standard updates: the full encoder record at that standard's rate for the kept offset, sample rate and flicks, and an empty FIFO |
| LtcGenerate.LtcGenerator.EncodeNextByte | LTC/LTC.cpp:74-84 | the FIFO receives exactly the codec's samples for the current byte, the byte index moves on modulo 10 and the encoder time advances at the wrap |
| LtcGenerate.LtcGenerator.FillWhenEmpty | LTC/LTC.cpp:72-85 | a non-empty FIFO is left alone; an empty one receives exactly one byte's samples; afterwards it is not empty |
| LtcGenerate.LtcGenerator.NextSample | LTC/LTC.cpp:72-88 | the sample taken is the front of the FIFO after the refill, and a byte is encoded exactly when the FIFO was empty |
| LtcGenerate.LtcGenerator.EmitSample | LTC/LTC.cpp:72-89 | writes the stream's next sample as a level at `frame` and nothing else in the output |
| LtcGenerate.LtcGenerator.Render | LTC/LTC.cpp:70-90 | exactly `frames` levels are written, which are the FIFO's contents followed by the encoded bytes' samples, in order; the rest of the stream stays in the FIFO; a byte is encoded only after all earlier samples were consumed; the byte index and encoder time follow the byte count |
| LtcGenerate.LtcGenerator.Tick | LTC/LTC.cpp:65-91 | records the tick start in flicks and renders `frames` samples at the bit-duration scale 120/tempo, as above |
| XWax.VinylIndex | LTC/XWax.hpp:39-53 | the 12 vinyl types have the indices 0..11 |
| XWax.SpeedIndex | LTC/XWax.hpp:54-58 | the speed index is 0 or 1 |
| XWax.FilterIndex | LTC/XWax.hpp:59-63 | the pitch-filter index is 0 or 1 |
| XWax.TimecodeName | LTC/XWax.cpp:42-48 | an index outside the table gives serato_2a |
| XWax.TimecodeNamesDistinct | LTC/XWax.cpp:16-29 | every vinyl type names its own definition, in declaration order (serato_2a first, pioneer_b last), and an out-of-range index falls back to serato_2a |
| XWax.SpeedMultiplier | LTC/XWax.cpp:50-54 | 1.35 exactly at 45 rpm, 1.0 otherwise |
| XWax.FindDefinition | LTC/XWax.cpp:86-94 | the requested name when it can be found, else serato_2a when that can, else nothing |
| XWax.TimecoderForCases | LTC/XWax.cpp:70-105 | a timecoder exists iff the rate is positive and the name or serato_2a resolves; it is then on a found definition, at the speed's multiplier (1.35 at 45 rpm), line level, with the legacy pitch filter exactly for alpha-beta |
| XWax.TimecoderRate | LTC/XWax.cpp:101 | the rate given to `timecoder_init` is the setup rate truncated to an unsigned int |
| XWax.ToShort | LTC/XWax.cpp:188-201 | a sample becomes a 16-bit value, truncating x*32767 when x is in [-1, 1] |
| XWax.ToShortShape | LTC/XWax.cpp:186-200 | the conversion is monotone, saturates at 32767 and -32768, and maps 1, -1 and 0 to 32767, -32767 and 0 |
| XWax.PositionQuality | LTC/XWax.cpp:234-249 | 0 exactly for position -1, 50 exactly for a move of less than 5 ms from a known position, 100 otherwise |
| XWax.OnlyMinusOneIsNoPosition | LTC/XWax.cpp:235-238 | only -1 scores 0; -2 after an unknown position scores 100 |
| XWax.FirstTickAfterReset | LTC/XWax.cpp:239-244 | after a reset a located tick scores 100 in total |
| XWax.PitchQuality | LTC/XWax.cpp:252-266 | the pitch score is 0, 75 or 100, and 0 with an empty ring or an unchanged pitch |
| XWax.PitchQualityIsStability | LTC/XWax.cpp:255-264 | with s = abs(pitch/change): 0 iff s < 3, 100 iff s > 6, 75 iff 3 <= s <= 6 |
| XWax.UnchangedPitchScoresZero | LTC/XWax.cpp:253-266 | an unchanged pitch scores 0; pitch 1 after 0.5 scores 0 and after 0.9 scores 100 |
| XWax.Score | LTC/XWax.cpp:270 | every stored score lies in [0, 200] |
| XWax.RingStep | LTC/XWax.cpp:270-273 | storing at the index, moving it on modulo 32 and saturating the fill count at 32 keeps the ring equal to the last 32 scores |
| XWax.RingSum | LTC/XWax.cpp:276-277 | summing the first `filled` slots sums the stored window, which is a rotation of them |
| XWax.MeanQuality | LTC/XWax.cpp:278-280 | the quality (sum / (2 * 100 * count), clamped) always lies in [0, 1]; `QualityIsMeanScore` gives its exact value on a window of scores |
| XWax.QualityIsMeanScore | LTC/XWax.cpp:276-280 | the clamp never bites: the quality is the window's mean score over 200, already in [0, 1] |
| XWax.ConstantWindow | LTC/XWax.cpp:276-280 | a window of equal scores v publishes v/200 (32 ticks at 100 publish 0.5) |
| XWax.WindowForgets | LTC/XWax.cpp:269-280 | after 32 more scores the window is exactly those 32, whatever came before |
| XWax.XWaxDvs.constructor | LTC/XWax.hpp:115-138 | default controls, zero outputs, no timecoder, trackers at -1 (so the first tick reinitialises), empty ring, last position -1, last pitch 0 |
| XWax.XWaxDvs.ClearTimecoder | LTC/XWax.cpp:56-68 | afterwards uninitialised with no timecoder and no definition |
| XWax.XWaxDvs.InitTimecoder | LTC/XWax.cpp:70-113 | the timecoder becomes `TimecoderFor` the settings; on success the ring is zeroed and tracking restarts (empty history, position -1, pitch 0); on failure the ring and trackers are untouched |
| XWax.XWaxDvs.Prepare | LTC/XWax.cpp:115-127 | records the rate and sets the trackers to -1, so the next tick reinitialises |
| XWax.XWaxDvs.ApplySettings | LTC/XWax.cpp:133-146 | reinitialises exactly when a setting differs from the tracked one, afterwards tracks the current settings, and otherwise keeps timecoder and quality state |
| XWax.XWaxDvs.Reinit | LTC/XWax.cpp:141-146 | runs `init_timecoder` and tracks the current settings |
| XWax.XWaxDvs.Silence | LTC/XWax.cpp:148-171 | speed, tempo, position and quality 0, timecode -1, invalid |
| XWax.XWaxDvs.FillWorkBuffer | LTC/XWax.cpp:173-201 | the work buffer grows to at least 2*frames and never shrinks; left sample i goes to slot 2i and right to 2i+1 as 16-bit samples; slots past 2*frames are untouched |
| XWax.XWaxDvs.PublishPosition | LTC/XWax.cpp:211-230 | valid iff the position is non-negative; then the position less the lead-in and the raw position, in seconds, through `convert`; else 0, -1 and invalid |
| XWax.XWaxDvs.Publish | LTC/XWax.cpp:206-230 | speed is the pitch, tempo is pitch times the tempo input, and the position outputs as above |
| XWax.XWaxDvs.StoreScore | LTC/XWax.cpp:232-273 | appends this tick's score against the previous position and pitch to the history, keeping the ring equal to its last 32 scores, and records position and pitch |
| XWax.XWaxDvs.PushScore | LTC/XWax.cpp:269-273 | storing a score keeps the ring equal to the last 32 scores of the history extended by it |
| XWax.XWaxDvs.PublishQuality | LTC/XWax.cpp:275-280 | the quality is the mean score of the last (up to) 32 scores |
| XWax.XWaxDvs.UpdateQuality | LTC/XWax.cpp:232-280 | one more score in the history and the quality of its last 32 |
| XWax.XWaxDvs.Process | LTC/XWax.cpp:173-280 | interleaved samples, published outputs, one more score and the windowed quality |
| XWax.XWaxDvs.Run | LTC/XWax.cpp:148-280 | without a timecoder, two channels or frames: silent outputs, untouched tracking and work buffer; otherwise as `Process`, the work buffer grown to max(old size, 2 * frames) |
| XWax.XWaxDvs.Tick | LTC/XWax.cpp:129-281 | the timecoder is kept when the settings are unchanged and is `TimecoderFor` them otherwise; the outputs, work buffer (never shrinking, untouched when silent) and quality state are those of `Run` from the state after a possible reset, which the ghost outputs `h0`, `lastPos0` and `lastPitch0` name (empty history, position -1 and pitch 0 after a successful reinitialisation, the old ones otherwise) |

## Left out

- The libltc codec (`ltc_decoder_write_double`, `ltc_frame_to_time`, `ltc_encoder_encode_byte`, `ltc_encoder_get_bufferptr`, `ltc_encoder_get_buffersize`) is not modelled. The decoder is a queue whose new frames are a parameter of each tick, and a frame's time is given with it. The encoder is a pair of functions, assumed to yield 1 to buffer-size samples per byte.
- The encoder's samples for a byte are a function of its settings, loaded time, frame advances, byte index and speed. libltc's encoder also carries its biphase polarity and a fractional-sample remainder from byte to byte; the model does not capture that state, so it would give the same samples for two loads of the same time.
- The decoder queue is unbounded; libltc's queue of `queue_size` frames drops frames on overflow, which the model does not capture.
- The xwax timecoder (`timecoder_find_definition`, `timecoder_init`, `timecoder_clear`, `timecoder_submit`, the monitor, lookup-table building) is not modelled. Pitch and position are tick inputs, definition lookup is membership in a set of names, and the timecoder state is the configuration it was initialised with.
- XWax `convert_output` is not declared in the sources at hand, so it is a function parameter with no properties.
- `std::chrono::steady_clock` becomes a `now` parameter in milliseconds.
- LtcDecode.LtcInput.Tick: one `now` serves both the time stamp and the timeout check, where the source reads the clock twice. The outcome is the same for a clock that does not move within a tick.
- Doubles are reals: IEEE rounding, infinities and NaN are not modelled. C conversions to integers are truncation toward zero.
- LtcGenerate.LtcGenerator.Tick: requires a non-zero tempo. With tempo 0 the source passes an infinite bit-duration scale to the encoder, which reals cannot express.
- Encoder-creation failure (`ltc_encoder_create` returning null) is not modelled; the encoder is created whenever `update` runs.
- The UI ranges of the controls (offset in [-128000, 128000], queue size in [8, 256], lead-in, tempo) are not enforced; the model takes any integer or real.
- The `default:` branches of the switches over `LTC_TV_STANDARD`, `FrameRate` and `OutputFormat` are unreachable: the model's enumerations hold exactly the declared values.
- Integer overflow (`std::abs` of a position difference, the `int` quality sum, the 64-bit sample position) is not modelled; integers are unbounded.
- XWax.PitchQuality: the stability thresholds are written as comparisons of abs(pitch) with multiples of abs(change), not as a division; `XWax.PitchQualityIsStability` proves the two agree over the reals.
- XWax.XWaxDvs.Reinit: the trackers are recorded before `init_timecoder` rather than after it. `init_timecoder` neither reads nor writes them, so the resulting state is the same.
- XWax.XWaxDvs.Prepare: `m_work_buffer.reserve(4096)` only affects capacity, not contents, and is not modelled.
- The null check on `m_timecoder` in the XWax tick is not modelled: the constructor always allocates it.
- Destructors and freeing (`ltc_decoder_free`, `ltc_encoder_free`, `delete m_timecoder`) are memory management and are not modelled.
- Audio buses are sequences (XWax input) or an array (LTC output); the LTC input samples are not modelled, since only the decoder consumes them.
