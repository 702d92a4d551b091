/** Signed 16-bit PCM values and their little-endian two's-complement byte
    layout, the `'<h'` format of Python's `struct` module used by the WAV codec. */
module Pcm16 {

  /** One byte of a PCM frame buffer. */
  type Byte = b: int | 0 <= b < 256

  const Int16Min: int := -32768
  const Int16Max: int := 32767

  /** 2^16: two's-complement values are taken modulo this. */
  const Modulus: int := 65536

  predicate IsInt16(v: int)
  {
    Int16Min <= v <= Int16Max
  }

  predicate AllInt16(vs: seq<int>)
  {
    forall i :: 0 <= i < |vs| ==> IsInt16(vs[i])
  }

  /** Packs one value as `'<h'`: the low byte of its two's-complement form,
      then the high byte. The high byte carries the sign in its top bit. */
  function PackInt16(v: int): (bs: seq<Byte>)
    requires IsInt16(v)
    ensures |bs| == 2
    ensures (v < 0) <==> bs[1] >= 128
  {
    var u := v % Modulus;
    [u % 256, u / 256]
  }

  /** Unpacks one `'<h'` group (low byte first) into a signed value. */
  function UnpackInt16(lo: Byte, hi: Byte): (v: int)
    ensures IsInt16(v)
    ensures (v < 0) <==> hi >= 128
  {
    lo + 256 * hi - (if hi >= 128 then Modulus else 0)
  }

  /** Unpacking undoes packing for every 16-bit value. */
  lemma UnpackPackInt16(v: int)
    requires IsInt16(v)
    ensures UnpackInt16(PackInt16(v)[0], PackInt16(v)[1]) == v
  {
  }

  /** Packing undoes unpacking: every byte pair is the image of one value. */
  lemma PackUnpackInt16(lo: Byte, hi: Byte)
    ensures PackInt16(UnpackInt16(lo, hi)) == [lo, hi]
  {
  }

  /** Packs a whole sequence of values, `struct.pack('<Nh', *vs)`. */
  function Pack(vs: seq<int>): (bs: seq<Byte>)
    requires AllInt16(vs)
    ensures |bs| == 2 * |vs|
  {
    if vs == [] then [] else PackInt16(vs[0]) + Pack(vs[1..])
  }

  /** Unpacks a buffer of whole 2-byte groups, `struct.unpack('<Nh', bs)`
      with N == |bs| / 2. */
  function Unpack(bs: seq<Byte>): (vs: seq<int>)
    requires |bs| % 2 == 0
    ensures |vs| == |bs| / 2
    ensures AllInt16(vs)
  {
    if bs == [] then [] else [UnpackInt16(bs[0], bs[1])] + Unpack(bs[2..])
  }

  /** The i-th value occupies bytes 2i and 2i+1 of the packed buffer. */
  lemma {:induction false} PackAt(vs: seq<int>, i: int)
    requires AllInt16(vs)
    requires 0 <= i < |vs|
    ensures Pack(vs)[2 * i .. 2 * i + 2] == PackInt16(vs[i])
  {
    if i > 0 {
      PackAt(vs[1..], i - 1);
      assert Pack(vs) == PackInt16(vs[0]) + Pack(vs[1..]);
      assert Pack(vs)[2 * i .. 2 * i + 2] == Pack(vs[1..])[2 * (i - 1) .. 2 * (i - 1) + 2];
    }
  }

  /** The byte layout spelled out: byte 2i is (v mod 2^16) mod 256 and byte
      2i+1 is (v mod 2^16) div 256, for v the i-th value. */
  lemma PackLayout(vs: seq<int>, i: int)
    requires AllInt16(vs)
    requires 0 <= i < |vs|
    ensures Pack(vs)[2 * i] == (vs[i] % Modulus) % 256
    ensures Pack(vs)[2 * i + 1] == (vs[i] % Modulus) / 256
  {
    PackAt(vs, i);
    assert Pack(vs)[2 * i] == Pack(vs)[2 * i .. 2 * i + 2][0];
    assert Pack(vs)[2 * i + 1] == Pack(vs)[2 * i .. 2 * i + 2][1];
  }

  /** Packing distributes over concatenation: no separators, order kept. */
  lemma {:induction false} PackAppend(a: seq<int>, b: seq<int>)
    requires AllInt16(a) && AllInt16(b)
    ensures AllInt16(a + b)
    ensures Pack(a + b) == Pack(a) + Pack(b)
  {
    if a == [] {
      assert a + b == b;
    } else {
      assert (a + b)[1..] == a[1..] + b;
      PackAppend(a[1..], b);
    }
  }

  /** Unpacking a packed buffer gives back the values. */
  lemma {:induction false} UnpackPack(vs: seq<int>)
    requires AllInt16(vs)
    ensures Unpack(Pack(vs)) == vs
  {
    if vs != [] {
      var bs := Pack(vs);
      UnpackPack(vs[1..]);
      UnpackPackInt16(vs[0]);
      assert bs[2..] == Pack(vs[1..]);
      assert [bs[0], bs[1]] == PackInt16(vs[0]);
    }
  }

  /** Packing an unpacked buffer gives back the bytes. */
  lemma {:induction false} PackUnpack(bs: seq<Byte>)
    requires |bs| % 2 == 0
    ensures Pack(Unpack(bs)) == bs
  {
    if bs != [] {
      var vs := Unpack(bs);
      PackUnpack(bs[2..]);
      PackUnpackInt16(bs[0], bs[1]);
      assert vs[1..] == Unpack(bs[2..]);
      assert bs == [bs[0], bs[1]] + bs[2..];
    }
  }
}
