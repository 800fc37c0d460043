/**
 * 16-bit PCM as bytes: the layout of the audio frames the app streams
 * (signed 16-bit samples, low byte first).
 */
module Pcm {

  /** One octet. */
  newtype Byte = x: int | 0 <= x < 256

  /** A signed 16-bit sample. */
  newtype Int16 = x: int | -0x8000 <= x < 0x8000

  /** A sample as two bytes, low byte first, in two's complement. */
  function SampleBytes(x: Int16): seq<Byte> {
    var u := if x < 0 then x as int + 0x10000 else x as int;
    [(u % 256) as Byte, (u / 256) as Byte]
  }

  /** Two bytes, low byte first, read back as a signed sample. */
  function BytesSample(lo: Byte, hi: Byte): Int16 {
    var u := lo as int + 256 * hi as int;
    if u >= 0x8000 then (u - 0x10000) as Int16 else u as Int16
  }

  /** The bytes of an `Int16` buffer on a little-endian device. */
  function EncodeS16LE(samples: seq<Int16>): (r: seq<Byte>)
    ensures |r| == 2 * |samples|
  {
    if samples == [] then [] else SampleBytes(samples[0]) + EncodeS16LE(samples[1..])
  }

  /** Reads byte pairs back as samples; a trailing odd byte is ignored. */
  function DecodeS16LE(bytes: seq<Byte>): (r: seq<Int16>)
    ensures |r| == |bytes| / 2
  {
    if |bytes| < 2 then [] else [BytesSample(bytes[0], bytes[1])] + DecodeS16LE(bytes[2..])
  }

  lemma SampleRoundTrip(x: Int16)
    ensures BytesSample(SampleBytes(x)[0], SampleBytes(x)[1]) == x
  {
    var u := if x < 0 then x as int + 0x10000 else x as int;
    var lo, hi := u % 256, u / 256;
    assert SampleBytes(x) == [lo as Byte, hi as Byte];
    assert lo + 256 * hi == u;
  }

  /** The bytes emitted for a buffer read back as exactly its samples. */
  lemma {:induction false} DecodeEncode(samples: seq<Int16>)
    ensures DecodeS16LE(EncodeS16LE(samples)) == samples
  {
    if samples != [] {
      var e := EncodeS16LE(samples);
      SampleRoundTrip(samples[0]);
      assert e[2..] == EncodeS16LE(samples[1..]);
      DecodeEncode(samples[1..]);
    }
  }

  lemma BytesRoundTrip(lo: Byte, hi: Byte)
    ensures SampleBytes(BytesSample(lo, hi)) == [lo, hi]
  {
    var u := lo as int + 256 * hi as int;
    assert u % 256 == lo as int && u / 256 == hi as int;
  }

  /** Every even-length byte string is the encoding of the samples it decodes to. */
  lemma {:induction false} EncodeDecode(bytes: seq<Byte>)
    requires |bytes| % 2 == 0
    ensures EncodeS16LE(DecodeS16LE(bytes)) == bytes
  {
    if |bytes| >= 2 {
      var d := DecodeS16LE(bytes);
      BytesRoundTrip(bytes[0], bytes[1]);
      assert d[1..] == DecodeS16LE(bytes[2..]);
      EncodeDecode(bytes[2..]);
      assert bytes == bytes[..2] + bytes[2..];
    }
  }
}
