/** Linear 16-bit PCM: the quantiser of the capture worklet and the
    little-endian byte codec shared by the outbound frames and the inbound
    playback segments. */
module Pcm {

  /** A signed 16-bit sample, as stored in an `Int16Array`. */
  type Int16 = x: int | -32768 <= x <= 32767

  /** One octet of an `ArrayBuffer`/`Uint8Array`. */
  type Byte = x: int | 0 <= x < 256

  /** The worklet's sample conversion: `floor(x * 32768)` clamped to the
      16-bit range, first against the upper bound, then the lower. */
  function Quantize(x: real): (q: Int16)
    ensures x >= 1.0 ==> q == 32767
    ensures x < -1.0 ==> q == -32768
    ensures -1.0 <= x < 1.0 ==> q as real <= x * 32768.0 < q as real + 1.0
  {
    var f := (x * 32768.0).Floor;
    var upper := if f < 32767 then f else 32767;
    if upper > -32768 then upper else -32768
  }

  /** Sample-wise quantisation of a block of floating-point input. */
  function QuantizeAll(xs: seq<real>): (qs: seq<Int16>)
    ensures |qs| == |xs|
    ensures forall i :: 0 <= i < |xs| ==> qs[i] == Quantize(xs[i])
  {
    seq(|xs|, i requires 0 <= i < |xs| => Quantize(xs[i]))
  }

  /** Playback's conversion of a 16-bit sample to a float: `q / 32768`. */
  function ToSample(q: Int16): (x: real)
    ensures -1.0 <= x < 1.0
    ensures x * 32768.0 == q as real
  {
    q as real / 32768.0
  }

  /** Quantising a float in [-1, 1) and converting it back loses less than
      one quantisation step, and never rounds up. */
  lemma QuantizeError(x: real)
    requires -1.0 <= x < 1.0
    ensures ToSample(Quantize(x)) <= x
    ensures x - ToSample(Quantize(x)) < 1.0 / 32768.0
  {
    var q := Quantize(x);
    assert q as real <= x * 32768.0 < q as real + 1.0;
    assert ToSample(q) * 32768.0 == q as real;
  }

  /** `DataView.getInt16(offset, true)`: the two's-complement value of a
      little-endian byte pair. */
  function Signed16(lo: Byte, hi: Byte): (v: Int16)
    ensures v == lo + 256 * hi || v == lo + 256 * hi - 65536
  {
    var u := lo + 256 * hi;
    if u >= 32768 then u - 65536 else u
  }

  /** Low and high byte of a sample stored little-endian. */
  function LowByte(v: Int16): Byte { (v as int % 65536) % 256 }
  function HighByte(v: Int16): Byte { (v as int % 65536) / 256 }

  lemma SplitJoin(v: Int16)
    ensures Signed16(LowByte(v), HighByte(v)) == v
  {
    var u := v as int % 65536;
    assert LowByte(v) + 256 * HighByte(v) == u;
    if v >= 0 {
      assert u == v;
    } else {
      assert u == v + 65536;
    }
  }

  lemma JoinSplit(lo: Byte, hi: Byte)
    ensures LowByte(Signed16(lo, hi)) == lo && HighByte(Signed16(lo, hi)) == hi
  {
    var v := Signed16(lo, hi);
    assert (v as int) % 65536 == lo + 256 * hi;
  }

  /** The bytes of an `Int16Array`'s buffer (little-endian layout). */
  function EncodeLE(qs: seq<Int16>): (bs: seq<Byte>)
    ensures |bs| == 2 * |qs|
    ensures forall i :: 0 <= i < |qs| ==> bs[2 * i] == LowByte(qs[i]) && bs[2 * i + 1] == HighByte(qs[i])
  {
    if qs == [] then []
    else
      var rest := EncodeLE(qs[1..]);
      var bs := [LowByte(qs[0]), HighByte(qs[0])] + rest;
      assert forall i :: 1 <= i < |qs| ==> bs[2 * i] == rest[2 * (i - 1)] && bs[2 * i + 1] == rest[2 * (i - 1) + 1];
      bs
  }

  /** `getInt16(2 * i, true)` for every whole sample of the buffer; an odd
      trailing byte is ignored, as the typed-array length truncates
      `byteLength / 2`. */
  function DecodeLE(bs: seq<Byte>): (qs: seq<Int16>)
    ensures |qs| == |bs| / 2
  {
    seq(|bs| / 2, i requires 0 <= i < |bs| / 2 => Signed16(bs[2 * i], bs[2 * i + 1]))
  }

  /** Playback's decoding of an inbound PCM16 payload into float samples. */
  function DecodeSamples(bs: seq<Byte>): (xs: seq<real>)
    ensures |xs| == |bs| / 2
    ensures forall i :: 0 <= i < |xs| ==> -1.0 <= xs[i] < 1.0
    ensures forall i :: 0 <= i < |xs| ==> xs[i] == ToSample(Signed16(bs[2 * i], bs[2 * i + 1]))
  {
    var qs := DecodeLE(bs);
    seq(|qs|, i requires 0 <= i < |qs| => ToSample(qs[i]))
  }

  /** Decoding the bytes of encoded samples gives the samples back. */
  lemma DecodeEncode(qs: seq<Int16>)
    ensures DecodeLE(EncodeLE(qs)) == qs
  {
    var bs := EncodeLE(qs);
    forall i | 0 <= i < |qs|
      ensures DecodeLE(bs)[i] == qs[i]
    {
      assert bs[2 * i] == LowByte(qs[i]) && bs[2 * i + 1] == HighByte(qs[i]);
      assert DecodeLE(bs)[i] == Signed16(bs[2 * i], bs[2 * i + 1]);
      SplitJoin(qs[i]);
    }
  }

  /** Encoding the samples decoded from an even-length buffer gives the
      buffer back. */
  lemma EncodeDecode(bs: seq<Byte>)
    requires |bs| % 2 == 0
    ensures EncodeLE(DecodeLE(bs)) == bs
  {
    var qs := DecodeLE(bs);
    var out := EncodeLE(qs);
    forall k | 0 <= k < |bs|
      ensures out[k] == bs[k]
    {
      var i := k / 2;
      assert k == 2 * i || k == 2 * i + 1;
      assert qs[i] == Signed16(bs[2 * i], bs[2 * i + 1]);
      JoinSplit(bs[2 * i], bs[2 * i + 1]);
      assert out[2 * i] == LowByte(qs[i]) && out[2 * i + 1] == HighByte(qs[i]);
    }
  }

  /** The whole capture-to-playback path: a float block in [-1, 1) that is
      quantised, laid out as little-endian bytes and decoded again comes back
      sample by sample at most one quantisation step low. */
  lemma CaptureToPlayback(xs: seq<real>)
    requires forall i :: 0 <= i < |xs| ==> -1.0 <= xs[i] < 1.0
    ensures |DecodeSamples(EncodeLE(QuantizeAll(xs)))| == |xs|
    ensures forall i :: 0 <= i < |xs| ==>
      DecodeSamples(EncodeLE(QuantizeAll(xs)))[i] <= xs[i] &&
      xs[i] - DecodeSamples(EncodeLE(QuantizeAll(xs)))[i] < 1.0 / 32768.0
  {
    var qs := QuantizeAll(xs);
    DecodeEncode(qs);
    var ys := DecodeSamples(EncodeLE(qs));
    forall i | 0 <= i < |xs|
      ensures ys[i] <= xs[i] && xs[i] - ys[i] < 1.0 / 32768.0
    {
      assert ys[i] == ToSample(DecodeLE(EncodeLE(qs))[i]);
      QuantizeError(xs[i]);
    }
  }
}
