/** The sample conversion of `load_audio`:
    `np.frombuffer(out, np.int16).astype(np.float32) / 32768.0`
    on the raw signed 16-bit little-endian PCM that ffmpeg writes. */
module Pcm {
  import opened Exceptions

  /** One byte of a Python `bytes` value. */
  newtype byte = b: int | 0 <= b < 256

  /** What `np.frombuffer` raises when the byte count is not a multiple of
      the element size (2 for int16). */
  const FrombufferError: Exception :=
    Exception(ValueError, "buffer size must be a multiple of element size")

  predicate IsSample(x: int) {
    -32768 <= x <= 32767
  }

  /** The int16 whose little-endian bytes are `lo`, `hi`: the two's-complement
      reading of `lo + 256 * hi`. */
  function Int16(lo: byte, hi: byte): (x: int)
    ensures IsSample(x)
    ensures x >= 0 ==> x == Unsigned16(lo, hi)
    ensures x < 0 ==> x + 65536 == Unsigned16(lo, hi)
  {
    var u := Unsigned16(lo, hi);
    if u >= 32768 then u - 65536 else u
  }

  /** `lo + 256 * hi`, the unsigned reading of the two bytes. */
  function Unsigned16(lo: byte, hi: byte): (u: int)
    ensures 0 <= u < 65536
    ensures u % 256 == lo as int && u / 256 == hi as int
  {
    var l, h := lo as int, hi as int;
    assert 256 * h <= 256 * 255;
    l + 256 * h
  }

  /** Reads consecutive byte pairs as int16 samples, in order. */
  function DecodeS16LE(bytes: seq<byte>): (xs: seq<int>)
    requires |bytes| % 2 == 0
    ensures 2 * |xs| == |bytes|
    ensures forall i :: 0 <= i < |xs| ==> xs[i] == Int16(bytes[2 * i], bytes[2 * i + 1])
  {
    if bytes == [] then []
    else
      var rest := DecodeS16LE(bytes[2..]);
      assert forall i :: 0 <= i < |rest| ==> bytes[2..][2 * i] == bytes[2 * (i + 1)];
      [Int16(bytes[0], bytes[1])] + rest
  }

  /** `np.frombuffer(bytes, np.int16)`: the samples, or the ValueError for an
      odd byte count. */
  function FromBufferInt16(bytes: seq<byte>): (r: Result<seq<int>>)
    ensures r.Raised? <==> |bytes| % 2 == 1
    ensures r.Raised? ==> r.error == FrombufferError
    ensures r.Ok? ==> 2 * |r.value| == |bytes|
    ensures r.Ok? ==> r.value == DecodeS16LE(bytes)
    ensures r.Ok? ==> forall i :: 0 <= i < |r.value| ==> IsSample(r.value[i])
  {
    if |bytes| % 2 == 1 then Raised(FrombufferError) else Ok(DecodeS16LE(bytes))
  }

  /** The little-endian bytes of one int16 sample. */
  function EncodeSample(x: int): (b: seq<byte>)
    requires IsSample(x)
    ensures |b| == 2 && Int16(b[0], b[1]) == x
  {
    var u := if x < 0 then x + 65536 else x;
    var lo, hi := (u % 256) as byte, (u / 256) as byte;
    assert lo as int == u % 256 && hi as int == u / 256;
    assert Unsigned16(lo, hi) == u;
    [lo, hi]
  }

  /** What ffmpeg writes for a sequence of samples: the inverse of DecodeS16LE. */
  function EncodeS16LE(xs: seq<int>): (bytes: seq<byte>)
    requires forall i :: 0 <= i < |xs| ==> IsSample(xs[i])
    ensures |bytes| == 2 * |xs|
  {
    if xs == [] then [] else EncodeSample(xs[0]) + EncodeS16LE(xs[1..])
  }

  /** Decoding what was encoded gives the samples back. */
  lemma {:induction false} DecodeEncode(xs: seq<int>)
    requires forall i :: 0 <= i < |xs| ==> IsSample(xs[i])
    ensures DecodeS16LE(EncodeS16LE(xs)) == xs
  {
    if xs != [] {
      DecodeEncode(xs[1..]);
      var bytes := EncodeS16LE(xs);
      assert bytes[2..] == EncodeS16LE(xs[1..]);
    }
  }

  /** Every even-length byte string is the encoding of its samples, so no two
      outputs of ffmpeg decode to the same samples. */
  lemma {:induction false} EncodeDecode(bytes: seq<byte>)
    requires |bytes| % 2 == 0
    ensures EncodeS16LE(DecodeS16LE(bytes)) == bytes
  {
    if bytes != [] {
      EncodeDecode(bytes[2..]);
      var xs := DecodeS16LE(bytes);
      assert xs[1..] == DecodeS16LE(bytes[2..]);
      var u := Unsigned16(bytes[0], bytes[1]);
      assert (u % 256) as byte == bytes[0] && (u / 256) as byte == bytes[1];
      assert EncodeSample(xs[0]) == bytes[..2];
      assert bytes == bytes[..2] + bytes[2..];
    }
  }

  /** One float32 sample: int16 / 32768.0. Every int16 and every quotient by a
      power of two in this range is exact in float32, so the real number is
      the float value. */
  function Normalize(x: int): (r: real)
    requires IsSample(x)
    ensures -1.0 <= r < 1.0
    ensures r * 32768.0 == x as real
  {
    x as real / 32768.0
  }

  function NormalizeAll(xs: seq<int>): (rs: seq<real>)
    requires forall i :: 0 <= i < |xs| ==> IsSample(xs[i])
    ensures |rs| == |xs|
    ensures forall i :: 0 <= i < |rs| ==> -1.0 <= rs[i] < 1.0 && rs[i] * 32768.0 == xs[i] as real
  {
    seq(|xs|, i requires 0 <= i < |xs| => Normalize(xs[i]))
  }
}
