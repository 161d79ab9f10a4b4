/**
 * The recorder session and its WAV encoding (audio_recorder.py). Frames are
 * buffered only while recording; stopping encodes the buffer, in arrival
 * order, into a RIFF/WAVE PCM container with 16-bit samples.
 */
module Audio {
  import opened Wrappers

  /** A signed 16-bit sample, as the device delivers it (`dtype=np.int16`). */
  type Int16 = x: int | -0x8000 <= x < 0x8000

  type Byte = x: int | 0 <= x < 0x100

  /** One device buffer: its samples, interleaved by channel. */
  type Frame = seq<Int16>

  /** Bytes per sample (`setsampwidth(2)`); the arithmetic below writes it out as 2. */
  const SAMPLE_WIDTH := 2

  /** The header length of a canonical PCM WAV file. */
  const HEADER_LENGTH := 44

  /** What Python's `struct` raises when the RIFF size does not fit 32 bits. */
  const STRUCT_ERROR := "'L' format requires 0 <= number <= 4294967295"

  /** `np.concatenate(frames, axis=0)`: the frames' samples one after another, in arrival order. */
  function Concat(frames: seq<Frame>): seq<Int16> {
    if frames == [] then [] else Concat(frames[..|frames| - 1]) + frames[|frames| - 1]
  }

  /** The k-th little-endian byte of a number. */
  function ByteOf(x: int, k: nat): Byte
    requires k < 4
  {
    if k == 0 then x % 0x100
    else if k == 1 then x / 0x100 % 0x100
    else if k == 2 then x / 0x1_0000 % 0x100
    else x / 0x100_0000 % 0x100
  }

  /** The unsigned 16-bit number stored little-endian at `b[i..i + 2]`. */
  function U16At(b: seq<Byte>, i: nat): int
    requires i + 2 <= |b|
  {
    b[i] as int + 0x100 * b[i + 1] as int
  }

  /** The unsigned 32-bit number stored little-endian at `b[i..i + 4]`. */
  function U32At(b: seq<Byte>, i: nat): int
    requires i + 4 <= |b|
  {
    b[i] as int + 0x100 * b[i + 1] as int + 0x1_0000 * b[i + 2] as int + 0x100_0000 * b[i + 3] as int
  }

  /** A 16-bit number written as two bytes reads back as itself. */
  lemma ReadBack16(b: seq<Byte>, i: nat, x: int)
    requires 0 <= x < 0x1_0000 && i + 2 <= |b|
    requires b[i] == ByteOf(x, 0) && b[i + 1] == ByteOf(x, 1)
    ensures U16At(b, i) == x
  {
  }

  /** A 32-bit number written as four bytes reads back as itself. */
  lemma ReadBack32(b: seq<Byte>, i: nat, x: int)
    requires 0 <= x < 0x1_0000_0000 && i + 4 <= |b|
    requires b[i] == ByteOf(x, 0) && b[i + 1] == ByteOf(x, 1)
    requires b[i + 2] == ByteOf(x, 2) && b[i + 3] == ByteOf(x, 3)
    ensures U32At(b, i) == x
  {
    var q1 := x / 0x100;
    var q2 := q1 / 0x100;
    assert x == ByteOf(x, 0) + 0x100 * q1;
    assert q1 == ByteOf(x, 1) + 0x100 * q2;
    assert q2 == x / 0x1_0000;
    assert q2 == ByteOf(x, 2) + 0x100 * (q2 / 0x100);
    assert q2 / 0x100 == x / 0x100_0000;
  }

  /** Two's complement: the unsigned 16-bit pattern of a sample, and back. */
  function ToU16(x: Int16): (u: nat)
    ensures u < 0x1_0000
  {
    if x < 0 then x + 0x1_0000 else x
  }

  function FromU16(u: int): Int16
    requires 0 <= u < 0x1_0000
  {
    if u >= 0x8000 then u - 0x1_0000 else u
  }

  /** `audio_array.tobytes()`: every sample as two little-endian bytes. */
  function SampleBytes(s: seq<Int16>): (r: seq<Byte>)
    ensures |r| == 2 * |s|
  {
    if s == [] then []
    else
      var u := ToU16(s[|s| - 1]);
      SampleBytes(s[..|s| - 1]) + [ByteOf(u, 0), ByteOf(u, 1)]
  }

  /** Reads the samples back from their bytes, two at a time. */
  function DecodeSamples(b: seq<Byte>): (r: seq<Int16>)
    ensures |r| == |b| / 2
    decreases |b|
  {
    if |b| < 2 then [] else DecodeSamples(b[..|b| - 2]) + [FromU16(U16At(b, |b| - 2))]
  }

  /** Two bytes appended to a buffer: dropping them gives the buffer back, reading them gives the number. */
  lemma LastPair(init: seq<Byte>, u: int)
    requires 0 <= u < 0x1_0000
    ensures var b := init + [ByteOf(u, 0), ByteOf(u, 1)];
      b[..|b| - 2] == init && U16At(b, |b| - 2) == u
  {
    var b := init + [ByteOf(u, 0), ByteOf(u, 1)];
    ReadBack16(b, |b| - 2, u);
  }

  lemma TwosComplement(x: Int16)
    ensures FromU16(ToU16(x)) == x
  {
  }

  lemma {:induction false} DecodeSampleBytes(s: seq<Int16>)
    ensures DecodeSamples(SampleBytes(s)) == s
  {
    if s != [] {
      var init, last := s[..|s| - 1], s[|s| - 1];
      var u := ToU16(last);
      var b := SampleBytes(s);
      assert b == SampleBytes(init) + [ByteOf(u, 0), ByteOf(u, 1)];
      LastPair(SampleBytes(init), u);
      TwosComplement(last);
      DecodeSampleBytes(init);
      assert DecodeSamples(b) == init + [last];
      assert init + [last] == s;
    }
  }

  /** Bytes per second of audio. */
  function ByteRate(channels: int, rate: int): int {
    channels * rate * 2
  }

  /** The header fields fit the widths the container gives them (`struct.pack('<...LHHLLHH...')`). */
  predicate FormatFits(channels: int, rate: int) {
    && 1 <= channels && channels * 2 < 0x1_0000
    && 1 <= rate && rate < 0x1_0000_0000
    && 0 <= ByteRate(channels, rate) < 0x1_0000_0000
  }

  /** The RIFF chunk size, 36 + data length, fits 32 bits. */
  predicate DataFits(sampleCount: nat) {
    36 + 2 * sampleCount < 0x1_0000_0000
  }

  /** The four-character tags, read as little-endian numbers: "RIFF", "WAVE", "fmt " and "data". */
  const RIFF_TAG := 0x4646_4952
  const WAVE_TAG := 0x4556_4157
  const FMT_TAG := 0x2074_6d66
  const DATA_TAG := 0x6174_6164

  /** PCM, the only format the `wave` module writes. */
  const WAVE_FORMAT_PCM := 1

  function Le16(x: int): (r: seq<Byte>)
    ensures |r| == 2
  {
    [ByteOf(x, 0), ByteOf(x, 1)]
  }

  function Le32(x: int): (r: seq<Byte>)
    ensures |r| == 4
  {
    [ByteOf(x, 0), ByteOf(x, 1), ByteOf(x, 2), ByteOf(x, 3)]
  }

  /** The RIFF chunk's opening: "RIFF", the chunk size, "WAVE". */
  function RiffPart(dataLength: nat): (r: seq<Byte>)
    ensures |r| == 12
  {
    Le32(RIFF_TAG) + Le32(36 + dataLength) + Le32(WAVE_TAG)
  }

  /** The 16-byte "fmt " chunk: PCM, channels, rate, byte rate, block align, bits per sample. */
  function FmtPart(channels: int, rate: int): (r: seq<Byte>)
    ensures |r| == 24
  {
    (Le32(FMT_TAG) + Le32(16))
    + (Le16(WAVE_FORMAT_PCM) + Le16(channels) + Le32(rate))
    + (Le32(ByteRate(channels, rate)) + Le16(channels * 2) + Le16(16))
  }

  /** The opening of the "data" chunk: the tag and the data length. */
  function DataPart(dataLength: nat): (r: seq<Byte>)
    ensures |r| == 8
  {
    Le32(DATA_TAG) + Le32(dataLength)
  }

  /** The 44-byte header the `wave` module writes. */
  function WavHeader(channels: int, rate: int, dataLength: nat): (r: seq<Byte>)
    ensures |r| == HEADER_LENGTH
  {
    RiffPart(dataLength) + FmtPart(channels, rate) + DataPart(dataLength)
  }

  /** The WAV file of some samples, or the `struct` error when it would be too long. */
  function EncodeWav(channels: int, rate: int, samples: seq<Int16>): (r: Result<seq<Byte>, string>)
    requires FormatFits(channels, rate)
    ensures r.Success? <==> DataFits(|samples|)
    ensures r.Success? ==> |r.value| == HEADER_LENGTH + 2 * |samples|
  {
    if DataFits(|samples|) then
      Success(WavHeader(channels, rate, 2 * |samples|) + SampleBytes(samples))
    else Failure(STRUCT_ERROR)
  }

  /** What a reader of a PCM WAV file learns from it. */
  datatype WavInfo = WavInfo(channels: int, sampleRate: int, sampleWidth: int, samples: seq<Int16>)

  /** A PCM header with 16-bit samples whose sizes agree with the file's length. */
  predicate WellFormedHeader(b: seq<Byte>)
    requires HEADER_LENGTH <= |b|
  {
    && U32At(b, 0) == RIFF_TAG && U32At(b, 8) == WAVE_TAG
    && U32At(b, 12) == FMT_TAG && U32At(b, 16) == 16 && U16At(b, 20) == WAVE_FORMAT_PCM
    && U16At(b, 34) == 16 && U32At(b, 36) == DATA_TAG
    && U32At(b, 4) == 36 + U32At(b, 40) && |b| == HEADER_LENGTH + U32At(b, 40)
  }

  /** Reads a canonical 16-bit PCM WAV file; None when the bytes are not one. */
  function ParseWav(b: seq<Byte>): (r: Option<WavInfo>)
    ensures r.Some? ==> HEADER_LENGTH <= |b| && WellFormedHeader(b)
    ensures r.Some? ==> r.value.sampleWidth == SAMPLE_WIDTH && |r.value.samples| == (|b| - HEADER_LENGTH) / 2
  {
    if |b| < HEADER_LENGTH || !WellFormedHeader(b) then None
    else Some(WavInfo(U16At(b, 22), U32At(b, 24), U16At(b, 34) / 8, DecodeSamples(b[HEADER_LENGTH..])))
  }

  lemma RiffPartReadsBack(dataLength: nat)
    requires 36 + dataLength < 0x1_0000_0000
    ensures var p := RiffPart(dataLength);
      U32At(p, 0) == RIFF_TAG && U32At(p, 4) == 36 + dataLength && U32At(p, 8) == WAVE_TAG
  {
    var p := RiffPart(dataLength);
    ReadBack32(p, 0, RIFF_TAG);
    ReadBack32(p, 4, 36 + dataLength);
    ReadBack32(p, 8, WAVE_TAG);
  }

  lemma FmtPartReadsBack(channels: int, rate: int)
    requires FormatFits(channels, rate)
    ensures var p := FmtPart(channels, rate);
      && U32At(p, 0) == FMT_TAG && U32At(p, 4) == 16 && U16At(p, 8) == WAVE_FORMAT_PCM
      && U16At(p, 10) == channels && U32At(p, 12) == rate
      && U32At(p, 16) == ByteRate(channels, rate) && U16At(p, 20) == channels * 2 && U16At(p, 22) == 16
  {
    var p := FmtPart(channels, rate);
    ReadBack32(p, 0, FMT_TAG);
    ReadBack32(p, 4, 16);
    ReadBack16(p, 8, WAVE_FORMAT_PCM);
    ReadBack16(p, 10, channels);
    ReadBack32(p, 12, rate);
    ReadBack32(p, 16, ByteRate(channels, rate));
    ReadBack16(p, 20, channels * 2);
    ReadBack16(p, 22, 16);
  }

  lemma DataPartReadsBack(dataLength: nat)
    requires dataLength < 0x1_0000_0000
    ensures var p := DataPart(dataLength);
      U32At(p, 0) == DATA_TAG && U32At(p, 4) == dataLength
  {
    var p := DataPart(dataLength);
    ReadBack32(p, 0, DATA_TAG);
    ReadBack32(p, 4, dataLength);
  }

  /** Reading a field of the header reads it from the piece it lies in. */
  lemma ReadPieces(riff: seq<Byte>, fmt: seq<Byte>, dat: seq<Byte>, data: seq<Byte>)
    requires |riff| == 12 && |fmt| == 24 && |dat| == 8
    ensures var b := riff + fmt + dat + data;
      && (forall i :: 0 <= i <= 8 ==> U32At(b, i) == U32At(riff, i))
      && (forall i :: 0 <= i <= 22 ==> U16At(b, 12 + i) == U16At(fmt, i))
      && (forall i :: 0 <= i <= 20 ==> U32At(b, 12 + i) == U32At(fmt, i))
      && (forall i :: 0 <= i <= 4 ==> U32At(b, 36 + i) == U32At(dat, i))
      && b[HEADER_LENGTH..] == data
  {
    var b := riff + fmt + dat + data;
    assert forall i :: 0 <= i < 12 ==> b[i] == riff[i];
    assert forall i :: 0 <= i < 24 ==> b[12 + i] == fmt[i];
    assert forall i :: 0 <= i < 8 ==> b[36 + i] == dat[i];
  }

  /** What ParseWav reads from a file once its header fields are known. */
  lemma ParseFromFields(b: seq<Byte>, channels: int, rate: int)
    requires HEADER_LENGTH <= |b|
    requires U32At(b, 0) == RIFF_TAG && U32At(b, 4) == 36 + U32At(b, 40) && U32At(b, 8) == WAVE_TAG
    requires U32At(b, 12) == FMT_TAG && U32At(b, 16) == 16 && U16At(b, 20) == WAVE_FORMAT_PCM
    requires U16At(b, 22) == channels && U32At(b, 24) == rate && U16At(b, 34) == 16
    requires U32At(b, 36) == DATA_TAG && U32At(b, 40) == |b| - HEADER_LENGTH
    ensures ParseWav(b) == Some(WavInfo(channels, rate, SAMPLE_WIDTH, DecodeSamples(b[HEADER_LENGTH..])))
  {
  }

  /**
   * The header declares the format field by field: channel count, frame rate,
   * byte rate, block align (bytes per frame), 16 bits per sample and the data length.
   */
  lemma HeaderDeclaresFormat(channels: int, rate: int, dataLength: nat)
    requires FormatFits(channels, rate) && 36 + dataLength < 0x1_0000_0000
    ensures var h := WavHeader(channels, rate, dataLength);
      && U16At(h, 22) == channels && U32At(h, 24) == rate
      && U32At(h, 28) == ByteRate(channels, rate) && U16At(h, 32) == channels * SAMPLE_WIDTH
      && U16At(h, 34) == 8 * SAMPLE_WIDTH && U32At(h, 40) == dataLength
  {
    var riff, fmt, dat := RiffPart(dataLength), FmtPart(channels, rate), DataPart(dataLength);
    FmtPartReadsBack(channels, rate);
    DataPartReadsBack(dataLength);
    ReadPieces(riff, fmt, dat, []);
    assert WavHeader(channels, rate, dataLength) == riff + fmt + dat + [];
  }

  /** A header followed by its data parses as the header's format and the decoded data. */
  lemma ContainerRoundTrip(channels: int, rate: int, data: seq<Byte>)
    requires FormatFits(channels, rate) && 36 + |data| < 0x1_0000_0000
    ensures ParseWav(WavHeader(channels, rate, |data|) + data)
      == Some(WavInfo(channels, rate, SAMPLE_WIDTH, DecodeSamples(data)))
  {
    var n := |data|;
    var riff, fmt, dat := RiffPart(n), FmtPart(channels, rate), DataPart(n);
    RiffPartReadsBack(n);
    FmtPartReadsBack(channels, rate);
    DataPartReadsBack(n);
    ReadPieces(riff, fmt, dat, data);
    ParseFromFields(riff + fmt + dat + data, channels, rate);
  }

  /** Decoding the container recovers the channel count, rate, sample width and every sample. */
  lemma WavRoundTrip(channels: int, rate: int, samples: seq<Int16>)
    requires FormatFits(channels, rate) && DataFits(|samples|)
    ensures ParseWav(EncodeWav(channels, rate, samples).value)
      == Some(WavInfo(channels, rate, SAMPLE_WIDTH, samples))
  {
    ContainerRoundTrip(channels, rate, SampleBytes(samples));
    DecodeSampleBytes(samples);
  }

  /**
   * `_save_audio`: None for an empty buffer; otherwise the WAV container whose header
   * declares the channel count, a 2-byte sample width and the rate, and whose data is
   * the frames concatenated in arrival order; the `struct` error when that is too long.
   */
  function Saved(channels: int, rate: int, frames: seq<Frame>): (r: Result<Option<seq<Byte>>, string>)
    requires FormatFits(channels, rate)
    ensures r == Success(None) <==> frames == []
    ensures r.Failure? <==> frames != [] && !DataFits(|Concat(frames)|)
    ensures r.Success? && r.value.Some? ==>
      && |r.value.value| == HEADER_LENGTH + 2 * |Concat(frames)|
      && ParseWav(r.value.value) == Some(WavInfo(channels, rate, SAMPLE_WIDTH, Concat(frames)))
  {
    if frames == [] then Success(None)
    else
      match EncodeWav(channels, rate, Concat(frames))
      case Success(b) =>
        WavRoundTrip(channels, rate, Concat(frames));
        Success(Some(b))
      case Failure(e) => Failure(e)
  }

  /** AudioRecorder: the `recording` flag and the frame buffer, changed by start, stop and the device callback. */
  class AudioRecorder {
    const sampleRate: int
    const channels: int
    var recording: bool
    var audioData: seq<Frame>

    ghost predicate Valid()
      reads this
    {
      FormatFits(channels, sampleRate)
    }

    constructor (sampleRate: int, channels: int)
      requires FormatFits(channels, sampleRate)
      ensures Valid()
      ensures this.sampleRate == sampleRate && this.channels == channels
      ensures !recording && audioData == []
    {
      this.sampleRate := sampleRate;
      this.channels := channels;
      recording := false;
      audioData := [];
    }

    /** `is_recording`: the flag that start raises and stop lowers. */
    function IsRecording(): (r: bool)
      reads this
      ensures r <==> recording
    {
      recording
    }

    /**
     * `start_recording`: a no-op while recording; otherwise sets the flag and empties
     * the buffer. Returns whether a session started (and `on_recording_start` fired).
     */
    method StartRecording() returns (started: bool)
      modifies this
      ensures started == !old(recording)
      ensures recording
      ensures audioData == if started then [] else old(audioData)
    {
      if recording {
        return false;
      }
      recording := true;
      audioData := [];
      // the capture thread is started here
      started := true;
    }

    /**
     * `stop_recording`: None and no change when not recording; otherwise the flag is
     * cleared first, so later device buffers are dropped, and the buffer is encoded.
     */
    method StopRecording() returns (r: Result<Option<seq<Byte>>, string>)
      requires Valid()
      modifies this
      ensures !recording && audioData == old(audioData)
      ensures !old(recording) ==> r == Success(None)
      ensures old(recording) ==> r == Saved(channels, sampleRate, audioData)
    {
      if !recording {
        return Success(None);
      }
      recording := false;
      // the capture thread is joined and `on_recording_stop` fires here
      r := SaveAudio();
    }

    /** The device callback of `_record_audio`: a buffer is kept only while recording. */
    method CaptureCallback(indata: Frame)
      modifies this
      ensures recording == old(recording)
      ensures audioData == if recording then old(audioData) + [indata] else old(audioData)
    {
      if recording {
        audioData := audioData + [indata];
      }
    }

    /** `_save_audio`, step by step: concatenate the frames, then write header and samples. */
    method SaveAudio() returns (r: Result<Option<seq<Byte>>, string>)
      requires Valid()
      ensures r == Saved(channels, sampleRate, audioData)
    {
      if audioData == [] {
        return Success(None);
      }
      var samples := ConcatFrames(audioData);
      if !DataFits(|samples|) {
        return Failure(STRUCT_ERROR);
      }
      var header := WavHeader(channels, sampleRate, 2 * |samples|);
      var buffer := WriteSamples(header, samples);
      assert EncodeWav(channels, sampleRate, samples) == Success(buffer);
      r := Success(Some(buffer));
    }
  }

  /** `np.concatenate(frames, axis=0)`, one frame at a time. */
  method ConcatFrames(frames: seq<Frame>) returns (samples: seq<Int16>)
    ensures samples == Concat(frames)
  {
    samples := [];
    var i := 0;
    while i < |frames|
      invariant 0 <= i <= |frames|
      invariant samples == Concat(frames[..i])
    {
      assert frames[..i + 1][..i] == frames[..i];
      samples := samples + frames[i];
      i := i + 1;
    }
    assert frames[..i] == frames;
  }

  /** `writeframes(audio_array.tobytes())` after the header: appends every sample's two bytes. */
  method WriteSamples(header: seq<Byte>, samples: seq<Int16>) returns (buffer: seq<Byte>)
    ensures buffer == header + SampleBytes(samples)
  {
    buffer := header;
    var j := 0;
    while j < |samples|
      invariant 0 <= j <= |samples|
      invariant buffer == header + SampleBytes(samples[..j])
    {
      assert samples[..j + 1][..j] == samples[..j];
      var u := ToU16(samples[j]);
      buffer := buffer + [ByteOf(u, 0), ByteOf(u, 1)];
      j := j + 1;
    }
    assert samples[..j] == samples;
  }
}
