/** The LTC generate engine (`LTCGenerator`): loads the transport time into a libltc
    encoder and streams the encoder's samples through an elastic FIFO, encoding one
    byte of the 10-byte LTC frame whenever the FIFO runs dry and emitting one sample
    per output frame. */
module LtcGenerate {
  import opened CNumeric
  import opened LibLtc

  const SecondsPerDay := 86400
  /** An LTC frame is 80 bits, encoded one byte at a time. */
  const BytesPerFrame := 10

  // ---------------------------------------------------------------------------
  // boost::circular_buffer<uint8_t>

  /** A fixed-capacity FIFO of samples. Pushing onto a full buffer overwrites its
      oldest element; a buffer of capacity 0 ignores pushes. */
  class CircularBuffer {
    var data: array<Sample>
    var start: nat
    var len: nat
    ghost var Contents: seq<Sample>

    /** The array slot that holds the i-th oldest element. */
    function Slot(i: nat): nat
      reads this, data
    {
      if start + i < data.Length then start + i else start + i - data.Length
    }

    ghost predicate Valid()
      reads this, data
    {
      && len <= data.Length
      && (data.Length == 0 ==> start == 0)
      && (data.Length > 0 ==> start < data.Length)
      && |Contents| == len
      && forall i :: 0 <= i < len ==> Slot(i) < data.Length && Contents[i] == data[Slot(i)]
    }

    constructor (capacity: nat)
      ensures Valid() && fresh(data)
      ensures data.Length == capacity && Contents == []
    {
      data := new Sample[capacity];
      start, len := 0, 0;
      Contents := [];
    }

    function Empty(): (b: bool)
      reads this, data
      requires Valid()
      ensures b <==> Contents == []
    {
      len == 0
    }

    method PushBack(x: Sample)
      requires Valid()
      modifies this, data
      ensures Valid() && data == old(data)
      ensures Contents == if data.Length == 0 then old(Contents)
                          else if old(|Contents|) == data.Length then old(Contents)[1..] + [x]
                          else old(Contents) + [x]
    {
      if data.Length == 0 {
        return;
      }
      if len == data.Length {
        ghost var oldest := start;
        data[start] := x;
        start := if start + 1 == data.Length then 0 else start + 1;
        Contents := Contents[1..] + [x];
        forall i | 0 <= i < len
          ensures Slot(i) < data.Length && Contents[i] == data[Slot(i)]
        {
          if i < len - 1 {
            assert Slot(i) == old(Slot(i + 1)) != oldest;
          } else {
            assert Slot(i) == oldest;
          }
        }
      } else {
        data[Slot(len)] := x;
        len := len + 1;
        Contents := Contents + [x];
      }
    }

    method Front() returns (x: Sample)
      requires Valid() && Contents != []
      ensures x == Contents[0]
    {
      x := data[start];
    }

    method PopFront()
      requires Valid() && Contents != []
      modifies this
      ensures Valid() && data == old(data)
      ensures Contents == old(Contents)[1..]
    {
      start := if start + 1 == data.Length then 0 else start + 1;
      len := len - 1;
      Contents := Contents[1..];
    }
  }

  // ---------------------------------------------------------------------------
  // The encoder, as far as the engine sees it.

  /** A libltc encoder: its configuration, the buffer size it reports, the time last
      loaded into it and how many frames it has been advanced since. */
  datatype Encoder = Encoder(sampleRate: real, fps: real, standard: TvStandard, bufferSize: nat,
                             time: Smpte, increments: nat)

  /** The codec behind the encoder handle: the buffer size it allocates for a sample
      rate and frame rate, and the samples `ltc_encoder_encode_byte` followed by
      `ltc_encoder_get_bufferptr` yield for a byte index at a bit-duration scale. */
  datatype EncoderCodec = EncoderCodec(bufferSize: (real, real) -> nat,
                                       encodeByte: (Encoder, int, real) -> seq<Sample>)

  /** The codec allocates a buffer of at least one sample. */
  ghost predicate BufferFits(codec: EncoderCodec, rate: real, fps: real)
  {
    codec.bufferSize(rate, fps) >= 1
  }

  /** One encoded byte yields between one sample and a buffer's worth. */
  ghost predicate ChunkFits(codec: EncoderCodec, e: Encoder, b: int, speed: real)
  {
    e.bufferSize >= 1 ==> 1 <= |codec.encodeByte(e, b, speed)| <= e.bufferSize
  }

  /** What the engine relies on: buffers hold at least one sample and every encoded
      byte yields between one sample and a buffer's worth. */
  ghost predicate Sound(codec: EncoderCodec)
  {
    && (forall rate: real, fps: real :: BufferFits(codec, rate, fps))
    && (forall e: Encoder, b: int, speed: real :: ChunkFits(codec, e, b, speed))
  }

  /** The encoder frame rate for a TV standard (the switch in `update`). */
  function GeneratorFps(standard: TvStandard): (fps: real)
    ensures 24.0 <= fps <= 30.0
  {
    match standard
    case Tv525_60 | Tv1125_60 => 30.0
    case Tv625_50 => 25.0
    case TvFilm24 => 24.0
  }

  /** The whole second the generator starts from: trunc(flicks / 705600000 + offset). */
  function StartSeconds(flicks: int, offset: int): (total: int)
    ensures var t := flicks as real / FlicksPerSecond + offset as real;
      && (0.0 <= t ==> 0 <= total && total as real <= t < total as real + 1.0)
      && (t < 0.0 ==> total <= 0 && total as real - 1.0 < t <= total as real)
  {
    Trunc(flicks as real / FlicksPerSecond + offset as real)
  }

  /** The SMPTE time `update` loads: the day part is removed with truncating division,
      then hours, minutes and seconds are split off the same way and each is cast to
      `uint8_t`; the frame field is 0. */
  function TimeOfDay(total: int): (t: Smpte)
    ensures t.hours < 256 && t.mins < 256 && t.secs < 256 && t.frame == 0
  {
    var days := Quot(total, SecondsPerDay);
    var afterDays := total - days * SecondsPerDay;
    var hours := Quot(afterDays, 3600);
    var afterHours := afterDays - hours * 3600;
    var minutes := Quot(afterHours, 60);
    var seconds := afterHours - minutes * 60;
    Smpte(Uint8(hours), Uint8(minutes), Uint8(seconds), 0)
  }

  /** The encoder after k more bytes, starting at byte index b: one frame advance for
      every time the index wraps past 9. */
  function AfterBytes(e: Encoder, b: nat, k: nat): Encoder
  {
    e.(increments := e.increments + (b + k) / BytesPerFrame)
  }

  /** The samples the codec yields for k successive bytes, starting from encoder e at
      byte index b, in encoding order. */
  function Emitted(codec: EncoderCodec, e: Encoder, b: nat, speed: real, k: nat): seq<Sample>
  {
    if k == 0 then []
    else Emitted(codec, e, b, speed, k - 1)
         + codec.encodeByte(AfterBytes(e, b, k - 1), (b + k - 1) % BytesPerFrame, speed)
  }

  /** Encoding more bytes only appends: the samples of the first j bytes are a prefix
      of those of the first k. */
  lemma {:induction false} EmittedPrefixes(codec: EncoderCodec, e: Encoder, b: nat, speed: real, j: nat, k: nat)
    requires j <= k
    ensures Emitted(codec, e, b, speed, j) <= Emitted(codec, e, b, speed, k)
    decreases k
  {
    if j < k {
      EmittedPrefixes(codec, e, b, speed, j, k - 1);
    }
  }

  /** An 8-bit encoder sample as an audio level: data / 127 - 1. */
  function Level(s: Sample): (r: real)
    ensures -1.0 <= r <= 128.0 / 127.0
  {
    s as real / 127.0 - 1.0
  }

  // ---------------------------------------------------------------------------
  // The engine.

  class LtcGenerator {
    const codec: EncoderCodec
    // Controls.
    var offset: int
    var rate: TvStandard
    // The host setup.
    var sampleRate: real
    // Engine state.
    var encoder: Option<Encoder>
    var currentByte: int
    var buffer: CircularBuffer
    var currentFlicks: int
    /** How many encoders have been created. */
    ghost var encodersCreated: nat
    /** The byte index when the encoder time was last loaded, and bytes encoded since. */
    ghost var byteAtSet: int
    ghost var bytesSinceSet: nat

    ghost predicate Valid()
      reads this, buffer, buffer.data
    {
      && Sound(codec)
      && buffer.Valid()
      && 0 <= currentByte < BytesPerFrame
      && encodersCreated == (if encoder.Some? then 1 else 0)
      && (encoder.Some? ==>
            && encoder.value.bufferSize >= 1
            && buffer.data.Length == 16 * encoder.value.bufferSize
            && 0 <= byteAtSet < BytesPerFrame
            && encoder.value.increments == (byteAtSet + bytesSinceSet) / BytesPerFrame
            && currentByte == (byteAtSet + bytesSinceSet) % BytesPerFrame)
    }

    /** The engine as declared: offset 0, the first standard, no encoder, byte 0. */
    constructor (codec: EncoderCodec)
      requires Sound(codec)
      ensures Valid() && fresh(buffer) && fresh(buffer.data)
      ensures this.codec == codec && offset == 0 && rate == Tv525_60 && sampleRate == 0.0
      ensures encoder == None && currentByte == 0 && currentFlicks == 0 && buffer.Contents == []
    {
      this.codec := codec;
      offset, rate, sampleRate := 0, Tv525_60, 0.0;
      encoder, currentByte, currentFlicks := None, 0, 0;
      buffer := new CircularBuffer(0);
      encodersCreated, byteAtSet, bytesSinceSet := 0, 0, 0;
    }

    /** `update`: (re)configures the encoder for the standard, loads the time of day of
        the current transport position plus the offset, and replaces the FIFO with an
        empty one of 16 codec buffers. The byte index is kept. */
    method Update()
      requires Valid()
      modifies this`encoder, this`encodersCreated, this`byteAtSet, this`bytesSinceSet, this`buffer
      ensures Valid() && fresh(buffer) && fresh(buffer.data)
      ensures var fps := GeneratorFps(rate);
        encoder == Some(Encoder(sampleRate, fps, rate, codec.bufferSize(sampleRate, fps),
                                TimeOfDay(StartSeconds(currentFlicks, offset)), 0))
      ensures old(encoder).Some? ==> encodersCreated == old(encodersCreated)
      ensures buffer.Contents == [] && buffer.data.Length == 16 * encoder.value.bufferSize
      ensures currentByte == old(currentByte) && bytesSinceSet == 0
    {
      var fps := GeneratorFps(rate);
      var size := codec.bufferSize(sampleRate, fps);
      assert BufferFits(codec, sampleRate, fps);
      if encoder.None? {
        // ltc_encoder_create
        encoder := Some(Encoder(sampleRate, fps, rate, size, Smpte(0, 0, 0, 0), 0));
        encodersCreated := encodersCreated + 1;
      } else {
        // ltc_encoder_reinit
        encoder := Some(encoder.value.(sampleRate := sampleRate, fps := fps, standard := rate, bufferSize := size));
      }
      var total := StartSeconds(currentFlicks, offset);
      // ltc_encoder_set_timecode
      encoder := Some(encoder.value.(time := TimeOfDay(total), increments := 0));
      byteAtSet, bytesSinceSet := currentByte, 0;
      buffer := new CircularBuffer(16 * size);
    }

    /** `prepare`: records the sample rate and runs `update`. */
    method Prepare(sampleRate: real)
      requires Valid()
      modifies this`sampleRate, this`encoder, this`encodersCreated, this`byteAtSet, this`bytesSinceSet, this`buffer
      ensures Valid() && fresh(buffer) && fresh(buffer.data)
      ensures this.sampleRate == sampleRate
      ensures var fps := GeneratorFps(rate);
        encoder == Some(Encoder(sampleRate, fps, rate, codec.bufferSize(sampleRate, fps),
                                TimeOfDay(StartSeconds(currentFlicks, offset)), 0))
      ensures old(encoder).Some? ==> encodersCreated == old(encodersCreated)
      ensures buffer.Contents == [] && buffer.data.Length == 16 * encoder.value.bufferSize
      ensures currentByte == old(currentByte) && bytesSinceSet == 0
    {
      this.sampleRate := sampleRate;
      Update();
    }

    /** The "Offset (s)" hook: a new offset runs `update`. */
    method SetOffset(offset: int)
      requires Valid()
      modifies this`offset, this`encoder, this`encodersCreated, this`byteAtSet, this`bytesSinceSet, this`buffer
      ensures Valid() && fresh(buffer) && fresh(buffer.data)
      ensures this.offset == offset
      ensures var fps := GeneratorFps(rate);
        encoder == Some(Encoder(sampleRate, fps, rate, codec.bufferSize(sampleRate, fps),
                                TimeOfDay(StartSeconds(currentFlicks, offset)), 0))
      ensures old(encoder).Some? ==> encodersCreated == old(encodersCreated)
      ensures buffer.Contents == [] && buffer.data.Length == 16 * encoder.value.bufferSize
      ensures currentByte == old(currentByte) && bytesSinceSet == 0
    {
      this.offset := offset;
      Update();
    }

    /** The "Framerate" hook: a new standard runs `update`. */
    method SetRate(rate: TvStandard)
      requires Valid()
      modifies this`rate, this`encoder, this`encodersCreated, this`byteAtSet, this`bytesSinceSet, this`buffer
      ensures Valid() && fresh(buffer) && fresh(buffer.data)
      ensures this.rate == rate
      ensures var fps := GeneratorFps(rate);
        encoder == Some(Encoder(sampleRate, fps, rate, codec.bufferSize(sampleRate, fps),
                                TimeOfDay(StartSeconds(currentFlicks, offset)), 0))
      ensures old(encoder).Some? ==> encodersCreated == old(encodersCreated)
      ensures buffer.Contents == [] && buffer.data.Length == 16 * encoder.value.bufferSize
      ensures currentByte == old(currentByte) && bytesSinceSet == 0
    {
      this.rate := rate;
      Update();
    }

    /** One pass of the `while (m_buffer.empty())` loop: encodes the current byte,
        advances the byte index (and the encoder time after the tenth byte) and moves
        the encoded samples into the FIFO. */
    method EncodeNextByte(speed: real)
      requires Valid() && encoder.Some? && buffer.Contents == []
      modifies this`encoder, this`currentByte, this`bytesSinceSet, buffer, buffer.data
      ensures Valid() && buffer.data == old(buffer.data)
      ensures buffer.Contents == codec.encodeByte(old(encoder).value, old(currentByte), speed)
      ensures buffer.Contents != []
      ensures encoder == Some(AfterBytes(old(encoder).value, old(currentByte), 1))
      ensures currentByte == (old(currentByte) + 1) % BytesPerFrame
      ensures bytesSinceSet == old(bytesSinceSet) + 1
    {
      var samples := codec.encodeByte(encoder.value, currentByte, speed);
      assert ChunkFits(codec, encoder.value, currentByte, speed);
      currentByte := currentByte + 1;
      if currentByte == BytesPerFrame {
        // ltc_encoder_inc_timecode
        encoder := Some(encoder.value.(increments := encoder.value.increments + 1));
        currentByte := 0;
      }
      bytesSinceSet := bytesSinceSet + 1;
      assert |samples| <= buffer.data.Length;
      var i := 0;
      while i < |samples|
        modifies buffer, buffer.data
        invariant 0 <= i <= |samples|
        invariant buffer.data == old(buffer.data)
        invariant buffer.Valid() && buffer.Contents == samples[..i]
      {
        buffer.PushBack(samples[i]);
        i := i + 1;
      }
      assert samples[..|samples|] == samples;
    }

    /** The `while (m_buffer.empty())` loop: encodes one byte if and only if the FIFO
        is empty, after which it is not. */
    method FillWhenEmpty(speed: real)
      requires Valid() && encoder.Some?
      modifies this`encoder, this`currentByte, this`bytesSinceSet, buffer, buffer.data
      ensures Valid() && buffer.data == old(buffer.data)
      ensures buffer.Contents != []
      ensures old(buffer.Contents) != [] ==>
        buffer.Contents == old(buffer.Contents) && encoder == old(encoder)
        && currentByte == old(currentByte) && bytesSinceSet == old(bytesSinceSet)
      ensures old(buffer.Contents) == [] ==>
        buffer.Contents == codec.encodeByte(old(encoder).value, old(currentByte), speed)
        && encoder == Some(AfterBytes(old(encoder).value, old(currentByte), 1))
        && currentByte == (old(currentByte) + 1) % BytesPerFrame
        && bytesSinceSet == old(bytesSinceSet) + 1
    {
      var encoded := false;
      while buffer.Empty()
        invariant Valid() && buffer.data == old(buffer.data)
        invariant encoder.Some?
        invariant !encoded ==>
          buffer.Contents == old(buffer.Contents) && encoder == old(encoder)
          && currentByte == old(currentByte) && bytesSinceSet == old(bytesSinceSet)
        invariant encoded ==>
          && old(buffer.Contents) == [] && buffer.Contents != []
          && buffer.Contents == codec.encodeByte(old(encoder).value, old(currentByte), speed)
          && encoder == Some(AfterBytes(old(encoder).value, old(currentByte), 1))
          && currentByte == (old(currentByte) + 1) % BytesPerFrame
          && bytesSinceSet == old(bytesSinceSet) + 1
        decreases if buffer.Contents == [] then 1 else 0
      {
        EncodeNextByte(speed);
        encoded := true;
      }
    }

    /** One pass of the `for` loop: refills the FIFO if it is empty, then takes its
        oldest sample. `encoded` tells whether a byte was encoded. */
    method NextSample(speed: real) returns (data: Sample, ghost encoded: bool)
      requires Valid() && encoder.Some?
      modifies this`encoder, this`currentByte, this`bytesSinceSet, buffer, buffer.data
      ensures Valid() && buffer.data == old(buffer.data)
      ensures encoded <==> old(buffer.Contents) == []
      ensures var refilled := if encoded then codec.encodeByte(old(encoder).value, old(currentByte), speed)
                              else old(buffer.Contents);
        refilled != [] && data == refilled[0] && buffer.Contents == refilled[1..]
      ensures encoded ==>
        && encoder == Some(AfterBytes(old(encoder).value, old(currentByte), 1))
        && currentByte == (old(currentByte) + 1) % BytesPerFrame
        && bytesSinceSet == old(bytesSinceSet) + 1
      ensures !encoded ==>
        encoder == old(encoder) && currentByte == old(currentByte) && bytesSinceSet == old(bytesSinceSet)
    {
      encoded := buffer.Contents == [];
      FillWhenEmpty(speed);
      data := buffer.Front();
      buffer.PopFront();
    }

    /** One pass of the `for` loop, seen against the samples of the whole tick: with the
        FIFO holding the rest of `stream` from `frame` on, it writes the stream's sample at
        `frame` to `out[frame]`, encoding the next byte when the stream runs out. */
    method EmitSample(speed: real, out: array<real>, frame: nat, ghost e0: Encoder, ghost b0: nat,
                      ghost c0: seq<Sample>, ghost bytes: nat) returns (ghost bytes': nat)
      requires Valid() && b0 < BytesPerFrame && frame < out.Length
      requires encoder == Some(AfterBytes(e0, b0, bytes)) && currentByte == (b0 + bytes) % BytesPerFrame
      requires var stream := c0 + Emitted(codec, e0, b0, speed, bytes);
        frame <= |stream| && buffer.Contents == stream[frame..]
      modifies this`encoder, this`currentByte, this`bytesSinceSet, buffer, buffer.data, out
      ensures Valid() && buffer.data == old(buffer.data)
      ensures bytes' == bytes || bytes' == bytes + 1
      ensures encoder == Some(AfterBytes(e0, b0, bytes')) && currentByte == (b0 + bytes') % BytesPerFrame
      ensures bytesSinceSet == old(bytesSinceSet) + (bytes' - bytes)
      ensures var stream := c0 + Emitted(codec, e0, b0, speed, bytes);
        var stream' := c0 + Emitted(codec, e0, b0, speed, bytes');
        && frame < |stream'| && buffer.Contents == stream'[frame + 1..]
        && out[frame] == Level(stream'[frame])
        && (forall i :: 0 <= i < frame ==> stream'[i] == stream[i])
        && (bytes' > bytes ==> |stream| == frame)
      ensures forall i :: 0 <= i < out.Length && i != frame ==> out[i] == old(out[i])
    {
      var data, encoded := NextSample(speed);
      StreamAdvances(codec, e0, b0, c0, speed, bytes, frame, encoded, data, buffer.Contents);
      bytes' := bytes;
      if encoded {
        AfterOneMoreByte(e0, b0, bytes);
        bytes' := bytes + 1;
      }
      out[frame] := Level(data);
    }

    /** The `for` loop of `operator()`: writes `frames` samples to `out`. The samples are
        the FIFO's contents followed by those of the bytes encoded meanwhile, in order;
        a byte is encoded only when the FIFO is empty. `bytes` counts them. */
    method Render(speed: real, frames: int, out: array<real>) returns (ghost bytes: nat)
      requires Valid() && encoder.Some? && frames <= out.Length
      modifies this`encoder, this`currentByte, this`bytesSinceSet, buffer, buffer.data, out
      ensures Valid()
      ensures var stream := old(buffer.Contents) + Emitted(codec, old(encoder).value, old(currentByte), speed, bytes);
        && Max(frames, 0) <= |stream|
        && (forall i :: 0 <= i < frames ==> out[i] == Level(stream[i]))
        && buffer.Contents == stream[Max(frames, 0)..]
        && (bytes > 0 ==> |old(buffer.Contents)|
                          + |Emitted(codec, old(encoder).value, old(currentByte), speed, bytes - 1)| < frames)
      ensures forall i :: Max(frames, 0) <= i < out.Length ==> out[i] == old(out[i])
      ensures encoder == Some(AfterBytes(old(encoder).value, old(currentByte), bytes))
      ensures currentByte == (old(currentByte) + bytes) % BytesPerFrame
      ensures bytesSinceSet == old(bytesSinceSet) + bytes
    {
      ghost var e0, b0, c0 := encoder.value, currentByte, buffer.Contents;
      bytes := 0;
      ghost var stream := c0;
      var frame := 0;
      while frame < frames
        invariant 0 <= frame <= Max(frames, 0)
        invariant Valid() && buffer.data == old(buffer.data)
        invariant encoder == Some(AfterBytes(e0, b0, bytes)) && currentByte == (b0 + bytes) % BytesPerFrame
        invariant bytesSinceSet == old(bytesSinceSet) + bytes
        invariant stream == c0 + Emitted(codec, e0, b0, speed, bytes)
        invariant frame <= |stream| && buffer.Contents == stream[frame..]
        invariant forall i :: 0 <= i < frame ==> out[i] == Level(stream[i])
        invariant bytes > 0 ==> |c0| + |Emitted(codec, e0, b0, speed, bytes - 1)| < frame
        invariant forall i :: frame <= i < out.Length ==> out[i] == old(out[i])
      {
        bytes := EmitSample(speed, out, frame, e0, b0, c0, bytes);
        stream := c0 + Emitted(codec, e0, b0, speed, bytes);
        frame := frame + 1;
      }
      assert frame == Max(frames, 0);
    }

    /** One audio tick (`operator()`): records the transport position and renders
        `frames` samples at the bit-duration scale 120 / tempo. */
    method Tick(startFlicks: int, frames: int, tempo: real, out: array<real>) returns (ghost bytes: nat)
      requires Valid() && encoder.Some?
      requires tempo != 0.0
      requires frames <= out.Length
      modifies this`currentFlicks, this`encoder, this`currentByte, this`bytesSinceSet, buffer, buffer.data, out
      ensures Valid()
      ensures currentFlicks == startFlicks
      ensures var stream := old(buffer.Contents)
                            + Emitted(codec, old(encoder).value, old(currentByte), 120.0 / tempo, bytes);
        && Max(frames, 0) <= |stream|
        && (forall i :: 0 <= i < frames ==> out[i] == Level(stream[i]))
        && buffer.Contents == stream[Max(frames, 0)..]
        && (bytes > 0 ==> |old(buffer.Contents)|
                          + |Emitted(codec, old(encoder).value, old(currentByte), 120.0 / tempo, bytes - 1)| < frames)
      ensures forall i :: Max(frames, 0) <= i < out.Length ==> out[i] == old(out[i])
      ensures encoder == Some(AfterBytes(old(encoder).value, old(currentByte), bytes))
      ensures currentByte == (old(currentByte) + bytes) % BytesPerFrame
      ensures bytesSinceSet == old(bytesSinceSet) + bytes
    {
      currentFlicks := startFlicks;
      bytes := Render(120.0 / tempo, frames, out);
    }
  }

  // ---------------------------------------------------------------------------
  // Properties.

  /** One pass of the sample loop over the stream of samples the tick produces: the
      sample taken is the stream's next one, what stays in the FIFO is the rest of the
      stream, and the samples already written stay where they are. A byte is encoded
      only once the stream is exhausted. */
  lemma StreamAdvances(codec: EncoderCodec, e: Encoder, b: nat, c: seq<Sample>, speed: real, k: nat,
                       frame: nat, encoded: bool, data: Sample, rest: seq<Sample>)
    requires var stream := c + Emitted(codec, e, b, speed, k);
      && frame <= |stream|
      && (encoded <==> stream[frame..] == [])
      && var refilled := if encoded then codec.encodeByte(AfterBytes(e, b, k), (b + k) % BytesPerFrame, speed)
                         else stream[frame..];
         refilled != [] && data == refilled[0] && rest == refilled[1..]
    ensures var k' := if encoded then k + 1 else k;
      var stream := c + Emitted(codec, e, b, speed, k);
      var stream' := c + Emitted(codec, e, b, speed, k');
      && frame < |stream'| && stream'[frame] == data && rest == stream'[frame + 1..]
      && (forall i :: 0 <= i < frame ==> stream'[i] == stream[i])
      && (encoded ==> |stream| == frame)
  {
    var stream := c + Emitted(codec, e, b, speed, k);
    if encoded {
      var chunk := codec.encodeByte(AfterBytes(e, b, k), (b + k) % BytesPerFrame, speed);
      assert c + Emitted(codec, e, b, speed, k + 1) == stream + chunk;
    }
  }

  /** Encoding one more byte from where k bytes left the encoder is encoding k + 1. */
  lemma AfterOneMoreByte(e: Encoder, b: int, k: nat)
    requires 0 <= b < BytesPerFrame
    ensures AfterBytes(AfterBytes(e, b, k), (b + k) % BytesPerFrame, 1) == AfterBytes(e, b, k + 1)
  {
  }

  /** Every encoded byte yields at least one sample, so k bytes yield at least k
      samples: the FIFO loop always makes progress. */
  lemma {:induction false} EmittedAtLeastOnePerByte(codec: EncoderCodec, e: Encoder, b: nat, speed: real, k: nat)
    requires Sound(codec) && e.bufferSize >= 1
    ensures k <= |Emitted(codec, e, b, speed, k)| <= k * e.bufferSize
  {
    if k > 0 {
      EmittedAtLeastOnePerByte(codec, e, b, speed, k - 1);
      var chunk := codec.encodeByte(AfterBytes(e, b, k - 1), (b + k - 1) % BytesPerFrame, speed);
      assert ChunkFits(codec, AfterBytes(e, b, k - 1), (b + k - 1) % BytesPerFrame, speed);
      assert 1 <= |chunk| <= e.bufferSize;
      assert (k - 1) * e.bufferSize + e.bufferSize == k * e.bufferSize;
    }
  }

  /** The encoder time advances exactly once per 10 encoded bytes, whatever the byte
      index it starts from; the tempo takes no part in it. */
  lemma OneAdvancePerTenBytes(e: Encoder, b: int, k: nat)
    requires 0 <= b < BytesPerFrame
    ensures AfterBytes(e, b, k + BytesPerFrame).increments == AfterBytes(e, b, k).increments + 1
    ensures AfterBytes(e, b, k).increments - e.increments == (b + k) / BytesPerFrame
    ensures AfterBytes(e, b, k).increments - e.increments <= k / BytesPerFrame + 1
  {
  }

  /** For a non-negative total, the loaded time is that total's time of day: hours,
      minutes and seconds are in range and recompose to total mod 86400; frame is 0. */
  lemma TimeOfDayRecomposes(total: int)
    requires total >= 0
    ensures var t := TimeOfDay(total);
      && t.hours < 24 && t.mins < 60 && t.secs < 60 && t.frame == 0
      && t.hours * 3600 + t.mins * 60 + t.secs == total % SecondsPerDay
  {
    var days := Quot(total, SecondsPerDay);
    var afterDays := total - days * SecondsPerDay;
    assert 0 <= afterDays < SecondsPerDay;
    assert afterDays == total % SecondsPerDay;
    var hours := Quot(afterDays, 3600);
    var afterHours := afterDays - hours * 3600;
    assert 0 <= hours < 24;
    var minutes := Quot(afterHours, 60);
    assert 0 <= minutes < 60;
  }

  /** A negative total is not wrapped into the day: the truncating division leaves
      negative fields, which the `uint8_t` casts turn into large values. */
  lemma NegativeTotalWraps()
    ensures TimeOfDay(-1) == Smpte(0, 0, 255, 0)
    ensures TimeOfDay(-3661) == Smpte(255, 255, 255, 0)
  {
  }

  /** The encoder's rate agrees with the decode engine's non-drop rate of each standard. */
  lemma GeneratorFpsValues(standard: TvStandard)
    ensures GeneratorFps(standard) == 30.0 <==> standard == Tv525_60 || standard == Tv1125_60
    ensures GeneratorFps(standard) == 25.0 <==> standard == Tv625_50
    ensures GeneratorFps(standard) == 24.0 <==> standard == TvFilm24
  {
  }

  /** The sample mapping: 0 is -1, 127 is 0 and 254 is +1, and it is strictly increasing. */
  lemma LevelPoints(s: Sample, t: Sample)
    ensures Level(0) == -1.0 && Level(127) == 0.0 && Level(254) == 1.0
    ensures s < t ==> Level(s) < Level(t)
  {
  }
}
