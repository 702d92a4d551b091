/** Conversion between float sample buffers and mono 16-bit PCM frame bytes:
    the encoder `_float_to_ibytes` and the decoder `_ibytes_to_float` of
    osc_gen/wavfile.py. Samples are exact reals: scaling by 32768 = 2^15 and
    truncation are exact in binary floating point for the values admitted here. */
module SampleCodec {
  import opened Pcm16

  /** The scale between a float sample and a 16-bit value. */
  const FullScale: real := 32768.0

  /** The largest value a decoded sample can take, 32767 / 32768. */
  const MaxDecoded: real := 32767.0 / 32768.0

  /** One quantisation step, 1 / 32768. */
  const Step: real := 1.0 / 32768.0

  /** 2^48: beyond this the scaled sample no longer fits a 64-bit integer,
      the width assumed here for numpy's default integer, which
      `astype('int')` casts to; past it the cast is undefined. */
  const CastLimit: real := 281474976710656.0

  /** A sample whose scaled value truncates into a 64-bit integer. */
  predicate Castable(x: real)
  {
    -CastLimit <= x < CastLimit
  }

  predicate AllCastable(s: seq<real>)
  {
    forall i :: 0 <= i < |s| ==> Castable(s[i])
  }

  function Abs(x: real): (r: real)
  {
    if x < 0.0 then -x else x
  }

  /** Truncation toward zero, what `astype('int')` does to a float. */
  function TruncateTowardZero(x: real): (n: int)
    ensures 0.0 <= x ==> 0 <= n && n as real <= x < n as real + 1.0
    ensures x < 0.0 ==> n <= 0 && n as real - 1.0 < x <= n as real
  {
    if x >= 0.0 then x.Floor else -((-x).Floor)
  }

  /** `np.clip(n, -32768, 32767)`. */
  function Clip(n: int): (v: int)
    ensures IsInt16(v)
    ensures IsInt16(n) ==> v == n
    ensures n > Int16Max ==> v == Int16Max
    ensures n < Int16Min ==> v == Int16Min
  {
    if n < Int16Min then Int16Min else if n > Int16Max then Int16Max else n
  }

  /** One sample: scale by 32768, truncate toward zero, clip to 16 bits. */
  function Quantize(x: real): (v: int)
    requires Castable(x)
    ensures IsInt16(v)
    ensures 1.0 <= x ==> v == Int16Max
    ensures x <= -1.0 ==> v == Int16Min
    ensures -1.0 <= x < 1.0 ==> v == TruncateTowardZero(x * FullScale)
    ensures -1.0 <= x < 1.0 ==> Abs(v as real - x * FullScale) < 1.0
  {
    Clip(TruncateTowardZero(x * FullScale))
  }

  /** Quantisation truncates rather than rounds: 1.6384 and -1.6384 (scaled)
      go to 1 and -1, where rounding gives 2 and -2 and flooring gives -2. */
  lemma QuantizeTruncates()
    ensures Quantize(0.99999) == 32767
    ensures Quantize(-0.00001) == 0
    ensures Quantize(0.00005) == 1
    ensures Quantize(-0.00005) == -1
  {
  }

  /** Elementwise quantisation of a buffer (lines 19-21 of the encoder). */
  function QuantizeAll(s: seq<real>): (vs: seq<int>)
    requires AllCastable(s)
    ensures |vs| == |s|
    ensures AllInt16(vs)
  {
    seq(|s|, i requires 0 <= i < |s| => Quantize(s[i]))
  }

  /** `_float_to_ibytes`: quantise every sample and pack the values as `'<h'`. */
  function Encode(s: seq<real>): (bs: seq<Byte>)
    requires AllCastable(s)
    ensures |bs| == 2 * |s|
  {
    Pack(QuantizeAll(s))
  }

  /** One 16-bit value back to a float sample. */
  function Dequantize(v: int): (x: real)
    requires IsInt16(v)
    ensures -1.0 <= x <= MaxDecoded
    ensures x * FullScale == v as real
  {
    v as real / FullScale
  }

  function DequantizeAll(vs: seq<int>): (s: seq<real>)
    requires AllInt16(vs)
    ensures |s| == |vs|
    ensures forall i :: 0 <= i < |s| ==> -1.0 <= s[i] <= MaxDecoded
  {
    seq(|vs|, i requires 0 <= i < |vs| => Dequantize(vs[i]))
  }

  /** The error `struct.unpack` raises when the buffer is not exactly
      `required` bytes long. */
  datatype DecodeError = UnpackSizeMismatch(required: nat, actual: nat)

  datatype Result<T> = Ok(value: T) | Err(error: DecodeError)

  /** `_ibytes_to_float` as written: it counts len / 4 samples (Python's
      `int(num / 4)`, which for a length is floor division), then asks
      `struct.unpack` for that many 2-byte values, which raises unless the
      buffer is exactly twice that long. So every non-empty buffer fails. */
  function DecodeAsWritten(bs: seq<Byte>): (r: Result<seq<real>>)
    ensures r.Ok? <==> |bs| == 0
    ensures r.Err? ==> r.error == UnpackSizeMismatch(2 * (|bs| / 4), |bs|)
  {
    var num := |bs| / 4;
    if |bs| != 2 * num then Err(UnpackSizeMismatch(2 * num, |bs|))
    else Ok(DequantizeAll(Unpack(bs)))
  }

  /** The decoder as intended: one sample per 2-byte group, divided by 32768.
      Only a buffer with a dangling odd byte is refused. */
  function Decode(bs: seq<Byte>): (r: Result<seq<real>>)
    ensures r.Ok? <==> |bs| % 2 == 0
    ensures r.Err? ==> r.error == UnpackSizeMismatch(|bs| - 1, |bs|)
    ensures r.Ok? ==> |r.value| == |bs| / 2
    ensures r.Ok? ==> forall i :: 0 <= i < |r.value| ==> -1.0 <= r.value[i] <= MaxDecoded
  {
    var num := |bs| / 2;
    if |bs| != 2 * num then Err(UnpackSizeMismatch(2 * num, |bs|))
    else Ok(DequantizeAll(Unpack(bs)))
  }

  /** Encoding n samples gives 2n bytes, the i-th sample's value in bytes 2i
      (low) and 2i+1 (high), in two's complement modulo 2^16. */
  lemma EncodeLayout(s: seq<real>, i: int)
    requires AllCastable(s)
    requires 0 <= i < |s|
    ensures |Encode(s)| == 2 * |s|
    ensures Encode(s)[2 * i .. 2 * i + 2] == PackInt16(Quantize(s[i]))
    ensures Encode(s)[2 * i] == (Quantize(s[i]) % Modulus) % 256
    ensures Encode(s)[2 * i + 1] == (Quantize(s[i]) % Modulus) / 256
  {
    PackAt(QuantizeAll(s), i);
    PackLayout(QuantizeAll(s), i);
  }

  /** Encoding distributes over concatenation. */
  lemma EncodeAppend(a: seq<real>, b: seq<real>)
    requires AllCastable(a) && AllCastable(b)
    ensures AllCastable(a + b)
    ensures Encode(a + b) == Encode(a) + Encode(b)
  {
    assert QuantizeAll(a + b) == QuantizeAll(a) + QuantizeAll(b);
    PackAppend(QuantizeAll(a), QuantizeAll(b));
  }

  /** The corrected decoder inverts the encoder up to quantisation. */
  lemma DecodeEncode(s: seq<real>)
    requires AllCastable(s)
    ensures Decode(Encode(s)) == Ok(DequantizeAll(QuantizeAll(s)))
  {
    UnpackPack(QuantizeAll(s));
  }

  /** Every in-range sample comes back within one quantisation step, and
      out-of-range samples come back at the clip limits. */
  lemma DecodeEncodeWithinStep(s: seq<real>)
    requires AllCastable(s)
    ensures Decode(Encode(s)).Ok?
    ensures |Decode(Encode(s)).value| == |s|
    ensures forall i :: 0 <= i < |s| && -1.0 <= s[i] < 1.0 ==>
              Abs(Decode(Encode(s)).value[i] - s[i]) < Step
    ensures forall i :: 0 <= i < |s| && 1.0 <= s[i] ==> Decode(Encode(s)).value[i] == MaxDecoded
    ensures forall i :: 0 <= i < |s| && s[i] <= -1.0 ==> Decode(Encode(s)).value[i] == -1.0
  {
    DecodeEncode(s);
    var d := Decode(Encode(s)).value;
    forall i | 0 <= i < |s| && -1.0 <= s[i] < 1.0
      ensures Abs(d[i] - s[i]) < Step
    {
      var v := Quantize(s[i]);
      assert d[i] == v as real / FullScale;
      assert d[i] - s[i] == (v as real - s[i] * FullScale) / FullScale;
    }
  }

  /** The other round trip: decoding any well-formed buffer and encoding the
      samples again gives back the same bytes. */
  lemma EncodeDecode(bs: seq<Byte>)
    requires |bs| % 2 == 0
    ensures AllCastable(Decode(bs).value)
    ensures Encode(Decode(bs).value) == bs
  {
    var vs := Unpack(bs);
    var s := Decode(bs).value;
    assert QuantizeAll(s) == vs by {
      forall i | 0 <= i < |vs|
        ensures Quantize(s[i]) == vs[i]
      {
        assert s[i] * FullScale == vs[i] as real;
      }
    }
    PackUnpack(bs);
  }

  /** The buffer [0, 0.5, 1, 0.5, 0, -0.5, -1, -0.5] encodes to 16 bytes;
      the intended decoder returns it with 1.0 lowered to 32767/32768, one
      step away, while the decoder as written refuses it. */
  lemma ScenarioRoundTrip()
    ensures var s := [0.0, 0.5, 1.0, 0.5, 0.0, -0.5, -1.0, -0.5];
      && AllCastable(s)
      && Decode(Encode(s)) == Ok([0.0, 0.5, MaxDecoded, 0.5, 0.0, -0.5, -1.0, -0.5])
      && DecodeAsWritten(Encode(s)) == Err(UnpackSizeMismatch(8, 16))
  {
    var s := [0.0, 0.5, 1.0, 0.5, 0.0, -0.5, -1.0, -0.5];
    var vs := [0, 16384, 32767, 16384, 0, -16384, -32768, -16384];
    assert Quantize(0.5) == 16384 && Quantize(-0.5) == -16384;
    assert QuantizeAll(s) == vs;
    assert DequantizeAll(vs) == [0.0, 0.5, MaxDecoded, 0.5, 0.0, -0.5, -1.0, -0.5];
    DecodeEncode(s);
    assert |Encode(s)| == 16;
  }
}
