/**
 * Framing of captured audio as 16-bit signed little-endian PCM
 * (the `onaudioprocess` callback of the audio processor in src/App.js).
 *
 * The callback scales each float sample by 0x7FFF and hands the product to
 * `DataView.setInt16(2 * i, value, true)`. This model starts after the
 * scaling: a sample is an integer, and `setInt16` stores its ECMAScript
 * ToInt16 image, that is, the integer taken modulo 2^16.
 */
module Pcm16 {

  /** One octet of the frame's ArrayBuffer. */
  type Byte = x: int | 0 <= x < 0x100

  /** Values a signed 16-bit sample can take. */
  predicate IsInt16(v: int) {
    -0x8000 <= v < 0x8000
  }

  /** The 16-bit pattern `setInt16` writes for an integral value (ToUint16). */
  function Bits16(v: int): (u: int)
    ensures 0 <= u < 0x10000
  {
    v % 0x10000
  }

  /** Two's-complement reading of a 16-bit pattern (what `getInt16` returns). */
  function FromBits16(u: int): (v: int)
    requires 0 <= u < 0x10000
    ensures IsInt16(v)
    ensures Bits16(v) == u
  {
    if u < 0x8000 then u else u - 0x10000
  }

  /** ECMAScript ToInt16 restricted to integers: the value a sample has once stored. */
  function ToInt16(v: int): (r: int)
    ensures IsInt16(r)
    ensures IsInt16(v) ==> r == v
  {
    assert IsInt16(v) ==> Bits16(v) == if v < 0 then v + 0x10000 else v;
    FromBits16(Bits16(v))
  }

  /** The 16-bit pattern held by a low byte and a high byte. */
  function Word(lo: Byte, hi: Byte): (u: int)
    ensures 0 <= u < 0x10000
  {
    lo as int + 0x100 * hi as int
  }

  /** The two bytes of one sample, low byte first. */
  function EncodeSample(v: int): (bytes: seq<Byte>)
    ensures |bytes| == 2
    ensures Word(bytes[0], bytes[1]) == Bits16(v)
  {
    [Bits16(v) % 0x100, Bits16(v) / 0x100]
  }

  /** The frame for a buffer of samples: sample i at byte offsets 2i and 2i+1. */
  function Encode(samples: seq<int>): (frame: seq<Byte>)
    ensures |frame| == 2 * |samples| && |frame| % 2 == 0
  {
    if samples == [] then [] else EncodeSample(samples[0]) + Encode(samples[1..])
  }

  /** Reads a frame back as signed 16-bit little-endian samples. */
  function Decode(frame: seq<Byte>): (samples: seq<int>)
    requires |frame| % 2 == 0
    ensures |samples| == |frame| / 2
    ensures forall i :: 0 <= i < |samples| ==> IsInt16(samples[i])
  {
    if frame == [] then [] else [FromBits16(Word(frame[0], frame[1]))] + Decode(frame[2..])
  }

  /** Sample i occupies bytes 2i (low byte) and 2i+1 (high byte) of the frame. */
  lemma {:induction false} EncodeAt(samples: seq<int>, i: int)
    requires 0 <= i < |samples|
    ensures Encode(samples)[2 * i] == Bits16(samples[i]) % 0x100
    ensures Encode(samples)[2 * i + 1] == Bits16(samples[i]) / 0x100
  {
    var head, tail := EncodeSample(samples[0]), Encode(samples[1..]);
    assert Encode(samples) == head + tail;
    if i > 0 {
      EncodeAt(samples[1..], i - 1);
      assert samples[1..][i - 1] == samples[i];
      assert (head + tail)[2 * i] == tail[2 * (i - 1)];
      assert (head + tail)[2 * i + 1] == tail[2 * (i - 1) + 1];
    }
  }

  /** Decoding a frame yields every sample as ToInt16 stored it. */
  lemma {:induction false} DecodeEncode(samples: seq<int>)
    ensures |Decode(Encode(samples))| == |samples|
    ensures forall i :: 0 <= i < |samples| ==> Decode(Encode(samples))[i] == ToInt16(samples[i])
  {
    if samples != [] {
      var tail := samples[1..];
      DecodeEncode(tail);
      DecodeEncodeHead(samples);
      var d, dt := Decode(Encode(samples)), Decode(Encode(tail));
      forall i | 0 < i < |samples|
        ensures d[i] == ToInt16(samples[i])
      {
        assert d[i] == dt[i - 1];
        assert tail[i - 1] == samples[i];
      }
    }
  }

  /** One step of DecodeEncode: the first sample comes back first, the rest from the rest of the frame. */
  lemma DecodeEncodeHead(samples: seq<int>)
    requires samples != []
    ensures Decode(Encode(samples)) == [ToInt16(samples[0])] + Decode(Encode(samples[1..]))
  {
    var frame, tail := Encode(samples), Encode(samples[1..]);
    var head := EncodeSample(samples[0]);
    assert frame == head + tail;
    assert frame[2..] == tail;
    assert Word(frame[0], frame[1]) == Bits16(samples[0]);
  }

  /** Samples already in the signed 16-bit range survive the frame unchanged. */
  lemma RoundTrip(samples: seq<int>)
    requires forall i :: 0 <= i < |samples| ==> IsInt16(samples[i])
    ensures Decode(Encode(samples)) == samples
  {
    DecodeEncode(samples);
  }

  /** Every even-length byte string is the frame of its decoding. */
  lemma {:induction false} EncodeDecode(frame: seq<Byte>)
    requires |frame| % 2 == 0
    ensures Encode(Decode(frame)) == frame
  {
    if frame != [] {
      var u := Word(frame[0], frame[1]);
      assert u % 0x100 == frame[0] && u / 0x100 == frame[1];
      EncodeDecode(frame[2..]);
      assert Decode(frame)[1..] == Decode(frame[2..]);
      assert frame == [frame[0], frame[1]] + frame[2..];
    }
  }

  /**
   * The encoding loop: a zero-filled buffer of 2 * |samples| bytes in which
   * each sample is written little-endian at offset 2i.
   */
  method EncodeFrame(samples: seq<int>) returns (frame: array<Byte>)
    ensures fresh(frame)
    ensures frame[..] == Encode(samples)
  {
    frame := new Byte[2 * |samples|];
    for i := 0 to |samples|
      invariant forall j :: 0 <= j < 2 * i ==> frame[j] == Encode(samples)[j]
    {
      EncodeAt(samples, i);
      var u := Bits16(samples[i]);
      frame[2 * i] := u % 0x100;
      frame[2 * i + 1] := u / 0x100;
    }
  }
}
