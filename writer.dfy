/** The write paths of osc_gen/wavfile.py, `write` and `write_wavetable`.
    The open WAV file is a `WaveWriter` modelled on Python's `wave` module:
    its parameters are set with the checks that module makes, its header is
    written by the first `writeframes` (or by `close`), its frame data grows
    by each `writeframes`, and the length fields of the header are patched
    whenever they no longer match the data written. */
module WavWriter {
  import opened Pcm16
  import opened SampleCodec

  const DefaultFrameRate: int := 44100

  /** 2^32: the header's `'<L'` fields (RIFF length, frame rate, byte rate,
      data length) hold unsigned 32-bit values. */
  const HeaderFieldLimit: int := 0x1_0000_0000

  /** 2^16: the header's `'<H'` fields (channel count, block align, bits
      per sample) hold unsigned 16-bit values. */
  const ShortFieldLimit: int := 0x1_0000

  /** The RIFF length counts the frame data plus these 36 header bytes. */
  const RiffOverhead: int := 36

  /** The errors Python's `wave` module (and `struct`, under it) raises on
      the write path. */
  datatype WriteError =
    | ParametersFrozen          // a setter called after frame data was written
    | BadFrameRate(rate: int)   // `setframerate` with a rate <= 0
    | BadChannelCount(n: int)   // `setnchannels` with fewer than 1 channel
    | BadSampleWidth(w: int)    // `setsampwidth` outside 1..4 bytes
    | ParameterNotSet           // header written before all three parameters are set
    | FieldOverflow             // a header field out of range for its `struct` format

  datatype Option<T> = None | Some(value: T)

  predicate FitsUInt32(x: int)
  {
    0 <= x < HeaderFieldLimit
  }

  predicate FitsUInt16(x: int)
  {
    0 <= x < ShortFieldLimit
  }

  /** The data length the first header records: the whole frames of the
      data that first call is given. */
  function InitialDataLength(initLength: nat, channels: nat, sampleWidth: nat): (n: nat)
    requires channels > 0 && sampleWidth > 0
    ensures n <= initLength
    ensures initLength % (channels * sampleWidth) == 0 ==> n == initLength
  {
    var frameSize := channels * sampleWidth;
    (initLength / frameSize) * frameSize
  }

  /** Every field the header packs is in range for its format. */
  predicate HeaderFieldsFit(frameRate: nat, channels: nat, sampleWidth: nat, dataLength: nat)
  {
    && FitsUInt32(RiffOverhead + dataLength)
    && FitsUInt16(channels)
    && FitsUInt32(frameRate)
    && FitsUInt32(channels * frameRate * sampleWidth)
    && FitsUInt16(channels * sampleWidth)
    && FitsUInt16(sampleWidth * 8)
    && FitsUInt32(dataLength)
  }

  /** What writing the header reports, given the parameters and the length
      of the data that triggers it: each parameter must be set, and every
      packed field must fit its format. */
  function HeaderError(frameRate: nat, channels: nat, sampleWidth: nat, initLength: nat)
    : (r: Option<WriteError>)
    ensures r == Some(ParameterNotSet) <==> channels == 0 || sampleWidth == 0 || frameRate == 0
    ensures r.Some? ==> r.value == ParameterNotSet || r.value == FieldOverflow
    ensures r.None? ==> && channels > 0 && sampleWidth > 0 && frameRate > 0
                        && FitsUInt16(channels) && FitsUInt16(channels * sampleWidth)
                        && FitsUInt32(channels * frameRate * sampleWidth)
  {
    if channels == 0 || sampleWidth == 0 || frameRate == 0 then Some(ParameterNotSet)
    else if HeaderFieldsFit(frameRate, channels, sampleWidth,
                            InitialDataLength(initLength, channels, sampleWidth))
    then None
    else Some(FieldOverflow)
  }

  /** What patching the header's length fields reports: nothing to do when
      the recorded length matches the data written, otherwise the RIFF length
      36 + written (and with it the data length) must fit 32 bits. */
  function PatchError(recorded: nat, written: nat): (r: Option<WriteError>)
    ensures r.Some? <==> recorded != written && RiffOverhead + written >= HeaderFieldLimit
    ensures r.Some? ==> r.value == FieldOverflow
  {
    if written == recorded || FitsUInt32(RiffOverhead + written) then None
    else Some(FieldOverflow)
  }

  /** The outcome of a mono 16-bit write of `sampleCount` samples at
      `frameRate`: `setframerate` refuses a rate <= 0, and the header refuses
      a byte rate 2 * rate or a RIFF length 36 + 2 * sampleCount of 2^32 or
      more; nothing else can fail. */
  function WriteOutcome(frameRate: int, sampleCount: nat): (r: Option<WriteError>)
    ensures r.None? <==> 0 < frameRate < 0x8000_0000 && RiffOverhead + 2 * sampleCount < HeaderFieldLimit
    ensures frameRate <= 0 ==> r == Some(BadFrameRate(frameRate))
    ensures 0 < frameRate && r.Some? ==> r == Some(FieldOverflow)
  {
    if frameRate <= 0 then Some(BadFrameRate(frameRate))
    else HeaderError(frameRate, 1, 2, 2 * sampleCount)
  }

  /** Once a write of m samples overflows, so does any longer write, with
      the same error. */
  lemma WriteOutcomeGrows(frameRate: int, m: nat, n: nat)
    requires m <= n
    requires WriteOutcome(frameRate, m).Some?
    ensures WriteOutcome(frameRate, n) == WriteOutcome(frameRate, m)
  {
  }

  /** After a write of m samples succeeded, patching the length fields for
      n samples in all fails exactly as a single write of n samples would. */
  lemma PatchAgreesWithWriteOutcome(frameRate: int, m: nat, n: nat)
    requires m <= n
    requires WriteOutcome(frameRate, m).None?
    ensures PatchError(2 * m, 2 * n) == WriteOutcome(frameRate, n)
  {
  }

  /** An open WAV file being written: the parameters the three setters set
      (0 until set), whether the header has gone out, the data length the
      header records, and the frame bytes written so far. */
  class WaveWriter {
    var frameRate: nat
    var channels: nat
    var sampleWidth: nat
    var headerWritten: bool
    var dataLength: nat
    var frames: seq<Byte>

    /** `wave.open(filename, 'w')`: no parameter set, nothing written. */
    constructor ()
      ensures frameRate == 0 && channels == 0 && sampleWidth == 0
      ensures !headerWritten && dataLength == 0 && frames == []
    {
      frameRate, channels, sampleWidth := 0, 0, 0;
      headerWritten := false;
      dataLength := 0;
      frames := [];
    }

    /** `setframerate`: refuses a rate <= 0, and any change once frame data
        has been written. */
    method SetFrameRate(rate: int) returns (err: Option<WriteError>)
      modifies this`frameRate
      ensures err == if frames != [] then Some(ParametersFrozen)
                     else if rate <= 0 then Some(BadFrameRate(rate)) else None
      ensures frameRate == if err.None? then rate else old(frameRate)
    {
      if frames != [] {
        err := Some(ParametersFrozen);
      } else if rate <= 0 {
        err := Some(BadFrameRate(rate));
      } else {
        err := None;
        frameRate := rate;
      }
    }

    /** `setnchannels`: refuses fewer than one channel. */
    method SetChannels(n: int) returns (err: Option<WriteError>)
      modifies this`channels
      ensures err == if frames != [] then Some(ParametersFrozen)
                     else if n < 1 then Some(BadChannelCount(n)) else None
      ensures channels == if err.None? then n else old(channels)
    {
      if frames != [] {
        err := Some(ParametersFrozen);
      } else if n < 1 {
        err := Some(BadChannelCount(n));
      } else {
        err := None;
        channels := n;
      }
    }

    /** `setsampwidth`: accepts 1 to 4 bytes per sample. */
    method SetSampleWidth(w: int) returns (err: Option<WriteError>)
      modifies this`sampleWidth
      ensures err == if frames != [] then Some(ParametersFrozen)
                     else if w < 1 || w > 4 then Some(BadSampleWidth(w)) else None
      ensures sampleWidth == if err.None? then w else old(sampleWidth)
    {
      if frames != [] {
        err := Some(ParametersFrozen);
      } else if w < 1 || w > 4 {
        err := Some(BadSampleWidth(w));
      } else {
        err := None;
        sampleWidth := w;
      }
    }

    /** What making sure the header is written would report now, for a
        first write of `initLength` bytes. */
    function PendingHeaderError(initLength: nat): Option<WriteError>
      reads this
    {
      if headerWritten then None else HeaderError(frameRate, channels, sampleWidth, initLength)
    }

    /** The data length the header records once it is written, for a first
        write of `initLength` bytes. */
    function RecordedLength(initLength: nat): nat
      reads this
      requires PendingHeaderError(initLength).None?
    {
      if headerWritten then dataLength else InitialDataLength(initLength, channels, sampleWidth)
    }

    /** `_ensure_header_written`: the first call checks the parameters and
        writes the header, recording the whole frames of `initLength` bytes
        as the data length; later calls do nothing. */
    method EnsureHeaderWritten(initLength: nat) returns (err: Option<WriteError>)
      modifies this`headerWritten, this`dataLength
      ensures err == old(PendingHeaderError(initLength))
      ensures headerWritten == (old(headerWritten) || err.None?)
      ensures dataLength == if err.None? then old(RecordedLength(initLength)) else old(dataLength)
    {
      if !headerWritten {
        err := HeaderError(frameRate, channels, sampleWidth, initLength);
        if err.None? {
          dataLength := InitialDataLength(initLength, channels, sampleWidth);
          headerWritten := true;
        }
      } else {
        err := None;
      }
    }

    /** `_patchheader`: when the recorded length differs from the data
        written, rewrites both length fields; `struct` refuses a RIFF length
        of 2^32 or more, and the recorded length is then left as it was. */
    method PatchHeader() returns (err: Option<WriteError>)
      requires headerWritten
      modifies this`dataLength
      ensures err == PatchError(old(dataLength), |frames|)
      ensures dataLength == if err.None? then |frames| else old(dataLength)
    {
      if |frames| == dataLength {
        err := None;
      } else if FitsUInt32(RiffOverhead + |frames|) {
        err := None;
        dataLength := |frames|;
      } else {
        err := Some(FieldOverflow);
      }
    }

    /** `writeframes`: makes sure the header is written, and on failure
        changes nothing; then appends the bytes, nothing in between, and
        patches the length fields, which may fail after the bytes are in. */
    method WriteFrames(data: seq<Byte>) returns (err: Option<WriteError>)
      modifies this`headerWritten, this`dataLength, this`frames
      ensures old(PendingHeaderError(|data|)).Some? ==>
        && err == old(PendingHeaderError(|data|))
        && headerWritten == old(headerWritten) && dataLength == old(dataLength)
        && frames == old(frames)
      ensures old(PendingHeaderError(|data|)).None? ==>
        && headerWritten && frames == old(frames) + data
        && err == PatchError(old(RecordedLength(|data|)), |frames|)
        && dataLength == if err.None? then |frames| else old(RecordedLength(|data|))
    {
      err := EnsureHeaderWritten(|data|);
      if err.Some? { return; }
      frames := frames + data;
      err := PatchHeader();
    }

    /** `close`: makes sure the header is written (recording no data if it
        was not), then patches the length fields if they are stale. */
    method Close() returns (err: Option<WriteError>)
      modifies this`headerWritten, this`dataLength
      ensures old(PendingHeaderError(0)).Some? ==>
        && err == old(PendingHeaderError(0))
        && headerWritten == old(headerWritten) && dataLength == old(dataLength)
      ensures old(PendingHeaderError(0)).None? ==>
        && headerWritten
        && err == PatchError(old(RecordedLength(0)), |frames|)
        && dataLength == if err.None? then |frames| else old(RecordedLength(0))
    {
      err := EnsureHeaderWritten(0);
      if err.Some? { return; }
      err := PatchHeader();
    }
  }

  predicate AllWavesCastable(waves: seq<seq<real>>)
  {
    forall k :: 0 <= k < |waves| ==> AllCastable(waves[k])
  }

  /** The frame stream a wavetable should produce: each wave's encoding,
      appended in order. */
  function FrameStream(waves: seq<seq<real>>): (bs: seq<Byte>)
    requires AllWavesCastable(waves)
    ensures |bs| == 2 * |Flatten(waves)|
  {
    if waves == [] then []
    else FrameStream(waves[..|waves| - 1]) + Encode(waves[|waves| - 1])
  }

  /** All samples of all waves, in order. */
  function Flatten(waves: seq<seq<real>>): (s: seq<real>)
  {
    if waves == [] then [] else Flatten(waves[..|waves| - 1]) + waves[|waves| - 1]
  }

  lemma {:induction false} FlattenCastable(waves: seq<seq<real>>)
    requires AllWavesCastable(waves)
    ensures AllCastable(Flatten(waves))
  {
    if waves != [] {
      FlattenCastable(waves[..|waves| - 1]);
    }
  }

  /** The wavetable's frame stream is the encoding of all its samples run
      together: waves are joined at the sample level with no separator. */
  lemma {:induction false} FrameStreamIsEncodeOfFlatten(waves: seq<seq<real>>)
    requires AllWavesCastable(waves)
    ensures AllCastable(Flatten(waves))
    ensures FrameStream(waves) == Encode(Flatten(waves))
    ensures |FrameStream(waves)| == 2 * |Flatten(waves)|
  {
    FlattenCastable(waves);
    if waves != [] {
      var init := waves[..|waves| - 1];
      FrameStreamIsEncodeOfFlatten(init);
      EncodeAppend(Flatten(init), waves[|waves| - 1]);
    }
  }

  /** Growing the table only appends to its frame stream. */
  lemma {:induction false} FrameStreamPrefix(waves: seq<seq<real>>, j: int)
    requires AllWavesCastable(waves)
    requires 0 <= j <= |waves|
    ensures FrameStream(waves[..j]) <= FrameStream(waves)
  {
    if j < |waves| {
      var init := waves[..|waves| - 1];
      assert init[..j] == waves[..j];
      FrameStreamPrefix(init, j);
    } else {
      assert waves[..j] == waves;
    }
  }

  /** Wave k sits, encoded, right after the 2-byte groups of the samples of
      waves 0..k-1, in the order the table gives. */
  lemma WaveAt(waves: seq<seq<real>>, k: int)
    requires AllWavesCastable(waves)
    requires 0 <= k < |waves|
    ensures var start := 2 * |Flatten(waves[..k])|;
      && start + 2 * |waves[k]| <= |FrameStream(waves)|
      && FrameStream(waves)[start .. start + 2 * |waves[k]|] == Encode(waves[k])
  {
    var start := 2 * |Flatten(waves[..k])|;
    FrameStreamPrefix(waves, k + 1);
    assert waves[..k + 1][..k] == waves[..k];
    FrameStreamIsEncodeOfFlatten(waves[..k]);
    var before := FrameStream(waves[..k + 1]);
    assert before == FrameStream(waves[..k]) + Encode(waves[k]);
    assert FrameStream(waves)[start .. start + 2 * |waves[k]|]
        == before[start .. start + 2 * |waves[k]|];
  }

  /** `write`: one mono 16-bit file holding the encoded buffer. It fails
      when the frame rate is outside (0, 2^31) or the encoding makes the
      RIFF length reach 2^32, and then no frames are written. */
  method Write(samples: seq<real>, frameRate: int := DefaultFrameRate)
    returns (w: WaveWriter, err: Option<WriteError>)
    requires AllCastable(samples)
    ensures fresh(w)
    ensures err == WriteOutcome(frameRate, |samples|)
    ensures err.None? ==> w.frameRate == frameRate && w.channels == 1 && w.sampleWidth == 2
    ensures err.None? ==> w.frames == Encode(samples) && w.dataLength == |w.frames|
    ensures err.Some? ==> w.frames == []
  {
    w := new WaveWriter();
    err := w.SetFrameRate(frameRate);
    if err.Some? { return; }
    err := w.SetChannels(1);
    err := w.SetSampleWidth(2);
    err := w.WriteFrames(Encode(samples));
    if err.Some? { return; }
    err := w.Close();
  }

  /** `write_wavetable`: one file, each wave of the table encoded and
      appended in turn. It fails when the frame rate is outside (0, 2^31)
      or the whole table's frame data makes the RIFF length reach 2^32:
      at `setframerate`, when the first wave writes the header, when a
      later wave's patch of the length fields overflows, or, for an empty
      table, at `close`. The frames written before it fails begin the
      table's frame stream. */
  method WriteWavetable(waves: seq<seq<real>>, frameRate: int := DefaultFrameRate)
    returns (w: WaveWriter, err: Option<WriteError>)
    requires AllWavesCastable(waves)
    ensures fresh(w)
    ensures err == WriteOutcome(frameRate, |Flatten(waves)|)
    ensures err.None? ==> w.frameRate == frameRate && w.channels == 1 && w.sampleWidth == 2
    ensures err.None? ==> w.frames == FrameStream(waves) && w.dataLength == |w.frames|
    ensures err.Some? ==> w.frames <= FrameStream(waves)
  {
    w := new WaveWriter();
    err := w.SetFrameRate(frameRate);
    if err.Some? { return; }
    err := w.SetChannels(1);
    err := w.SetSampleWidth(2);
    var i := 0;
    while i < |waves|
      invariant 0 <= i <= |waves|
      invariant w.frameRate == frameRate && w.channels == 1 && w.sampleWidth == 2
      invariant w.headerWritten <==> i > 0
      invariant w.frames == FrameStream(waves[..i])
      invariant i > 0 ==> w.dataLength == |w.frames|
      invariant i > 0 ==> WriteOutcome(frameRate, |Flatten(waves[..i])|).None?
    {
      var data := Encode(waves[i]);
      ghost var m := |Flatten(waves[..i])|;
      ghost var n := |Flatten(waves[..i + 1])|;
      assert waves[..i + 1][..i] == waves[..i];
      assert FrameStream(waves[..i + 1]) == w.frames + data;
      err := w.WriteFrames(data);
      if i == 0 {
        assert err == WriteOutcome(frameRate, n);
      } else {
        PatchAgreesWithWriteOutcome(frameRate, m, n);
        assert err == WriteOutcome(frameRate, n);
      }
      if err.Some? {
        FrameStreamPrefix(waves, i + 1);
        WriteOutcomeGrows(frameRate, n, |Flatten(waves)|);
        return;
      }
      i := i + 1;
    }
    assert waves[..i] == waves;
    err := w.Close();
  }
}
