/**
 * Little-endian signed 16-bit PCM, as the gateway packs microphone frames:
 * `Buffer.alloc(2 * n)` then `writeInt16LE(sample, 2 * i)` for every sample
 * (src/server/client-handler.ts:99-107, src/server/websocket-manager.ts:220-231).
 */
module Pcm {

  import opened Wrappers
  import opened Base64

  const Int16Min: int := -32768
  const Int16Max: int := 32767

  predicate InInt16Range(v: int) {
    Int16Min <= v <= Int16Max
  }

  /**
   * The two bytes `writeInt16LE(v, o)` stores: `buf[o] = v` and
   * `buf[o + 1] = v >>> 8`, each truncated to 8 bits by the byte store.
   */
  function Int16LE(v: int): (r: seq<byte>)
    requires InInt16Range(v)
    ensures |r| == 2
  {
    [v % 256, ((v % 0x1_0000_0000) / 256) % 256]
  }

  /** Reads back a little-endian signed 16-bit value (`readInt16LE`). */
  function ReadInt16LE(lo: byte, hi: byte): (v: int)
    ensures InInt16Range(v)
  {
    var u := lo + 256 * hi;
    if u >= 32768 then u - 65536 else u
  }

  lemma Int16RoundTrip(v: int)
    requires InInt16Range(v)
    ensures ReadInt16LE(Int16LE(v)[0], Int16LE(v)[1]) == v
  {
    var q, m := v / 256, v % 256;
    assert v == 256 * q + m && 0 <= m < 256;
    assert -128 <= q < 128;
    var w := v % 0x1_0000_0000;
    if v < 0 {
      ModWord(v + 0x1_0000_0000);
      assert w == v + 0x1_0000_0000;
      DivMod256(w, q + 0x100_0000, m);
      DivMod256(q + 0x100_0000, 0xFFFF, q + 256);
    } else {
      ModWord(v);
      DivMod256(w, q, m);
      DivMod256(q, 0, q);
    }
  }

  /** Division by 256 is determined by quotient and remainder. */
  lemma DivMod256(a: int, q: int, r: int)
    requires a == 256 * q + r && 0 <= r < 256
    ensures a / 256 == q && a % 256 == r
  {
  }

  /** Reduction modulo 2^32 of a value already in [0, 2^32) keeps it. */
  lemma ModWord(a: int)
    requires 0 <= a < 0x1_0000_0000
    ensures a % 0x1_0000_0000 == a
  {
  }

  /** `bytes` is the little-endian packing of `samples`: sample i at offset 2i. */
  ghost predicate PacksInt16LE(bytes: seq<byte>, samples: seq<int>) {
    && |bytes| == 2 * |samples|
    && forall i :: 0 <= i < |samples| ==> InInt16Range(samples[i]) && bytes[2 * i..2 * i + 2] == Int16LE(samples[i])
  }

  /**
   * The frame buffer the gateway fills: the packing of `samples`, or `None`
   * when some sample is outside [-32768, 32767], where `writeInt16LE` throws
   * a RangeError.
   */
  function PackedFrame(samples: seq<int>): (r: Option<seq<byte>>)
    ensures r.Some? <==> forall i :: 0 <= i < |samples| ==> InInt16Range(samples[i])
    ensures r.Some? ==> PacksInt16LE(r.value, samples)
  {
    if |samples| == 0 then Some([])
    else if !InInt16Range(samples[0]) then None
    else match PackedFrame(samples[1..])
      case None => None
      case Some(rest) =>
        var r := Int16LE(samples[0]) + rest;
        assert forall i :: 1 <= i < |samples| ==> r[2 * i..2 * i + 2] == rest[2 * (i - 1)..2 * (i - 1) + 2];
        Some(r)
  }

  /** The samples a little-endian buffer of even length holds. */
  function UnpackSamples(bytes: seq<byte>): (samples: seq<int>)
    requires |bytes| % 2 == 0
    ensures |samples| == |bytes| / 2
  {
    seq(|bytes| / 2, i requires 0 <= i < |bytes| / 2 => ReadInt16LE(bytes[2 * i], bytes[2 * i + 1]))
  }

  /** Unpacking a packed buffer gives back the original samples. */
  lemma UnpackPacked(bytes: seq<byte>, samples: seq<int>)
    requires PacksInt16LE(bytes, samples)
    ensures |bytes| % 2 == 0
    ensures UnpackSamples(bytes) == samples
  {
    forall i | 0 <= i < |samples| ensures UnpackSamples(bytes)[i] == samples[i] {
      assert bytes[2 * i] == bytes[2 * i..2 * i + 2][0];
      assert bytes[2 * i + 1] == bytes[2 * i..2 * i + 2][1];
      Int16RoundTrip(samples[i]);
    }
  }

  /** A frame decodes back to exactly the samples it was built from. */
  lemma FrameRoundTrip(samples: seq<int>, bytes: seq<byte>)
    requires PacksInt16LE(bytes, samples)
    ensures Decode(Encode(bytes)) == Some(bytes)
    ensures |bytes| % 2 == 0
    ensures UnpackSamples(bytes) == samples
  {
    DecodeEncode(bytes);
    UnpackPacked(bytes, samples);
  }
}
