/** The linear-PCM to μ-law encoder that the converter calls
    (`audioop.lin2ulaw(fragment, 2)`): each little-endian signed 16-bit sample
    becomes one byte, by the segment algorithm of ITU-T G.711 μ-law applied to
    the sample's top 14 bits, as Python's audioop module computes it. */
module Mulaw {
  import opened Chunking

  /** Bytes per 16-bit sample. */
  const Width: nat := 2

  const Bias := 0x84
  const Clip := 32635

  /** Upper ends of the eight segments of the biased 14-bit magnitude. */
  const SegmentEnd: seq<int> := [0x3F, 0x7F, 0xFF, 0x1FF, 0x3FF, 0x7FF, 0xFFF, 0x1FFF]

  /** The signed value of a little-endian 16-bit sample. */
  function Sample16(lo: byte, hi: byte): (v: int)
    ensures -32768 <= v < 32768
    ensures v >= 0 <==> hi < 0x80
  {
    var u := lo as int + 256 * hi as int;
    if u >= 32768 then u - 65536 else u
  }

  /** The first segment whose end is at least `m`, or 8 when there is none. */
  function Segment(m: int): (seg: nat)
    ensures seg <= 8
    ensures seg < 8 ==> m <= SegmentEnd[seg]
    ensures forall j :: 0 <= j < seg ==> SegmentEnd[j] < m
  {
    if m <= 0x3F then 0 else if m <= 0x7F then 1 else if m <= 0xFF then 2
    else if m <= 0x1FF then 3 else if m <= 0x3FF then 4 else if m <= 0x7FF then 5
    else if m <= 0xFFF then 6 else if m <= 0x1FFF then 7 else 8
  }

  function Pow2(k: nat): (p: nat)
    ensures p >= 1
  {
    if k == 0 then 1 else 2 * Pow2(k - 1)
  }

  /** μ-law code of a 14-bit two's-complement value. The code word is the
      sign, the segment and four quantisation bits, complemented: XOR with
      0xFF for non-negative values and with 0x7F for negative ones, written
      here as subtraction since the code word before complementing is below 0x80. */
  function Linear14ToUlaw(v: int): (b: byte)
    requires -8192 <= v < 8192
    ensures v >= 0 <==> b >= 0x80
  {
    var negative := v < 0;
    var magnitude := if negative then -v else v;
    var clipped := if magnitude > Clip then Clip else magnitude;
    var m := clipped + Bias / 4;
    var seg := Segment(m);
    if seg >= 8 then
      (if negative then 0 else 0x80)
    else
      var code := seg * 16 + (m / Pow2(seg + 1)) % 16;
      assert code < 0x80;
      (if negative then 0x7F - code else 0xFF - code) as byte
  }

  /** μ-law code of a signed 16-bit sample: its top 14 bits, by arithmetic shift. */
  function EncodeSample(v: int): (b: byte)
    requires -32768 <= v < 32768
    ensures v >= 0 <==> b >= 0x80
  {
    Linear14ToUlaw(v / 4)
  }

  /** `audioop.lin2ulaw(pcm, 2)`: one μ-law byte per 2-byte sample, in order. */
  function Lin2Ulaw(pcm: seq<byte>): (r: seq<byte>)
    requires |pcm| % 2 == 0
    ensures |r| == |pcm| / 2
    ensures forall i :: 0 <= i < |r| ==> r[i] == EncodeSample(Sample16(pcm[2 * i], pcm[2 * i + 1]))
  {
    if pcm == [] then []
    else [EncodeSample(Sample16(pcm[0], pcm[1]))] + Lin2Ulaw(pcm[2..])
  }

  /** The μ-law byte for silence (two zero bytes of PCM) is 0xFF. */
  lemma SilenceIsFF()
    ensures Lin2Ulaw([0, 0]) == [0xFF]
  {
    var pcm: seq<byte> := [0, 0];
    assert EncodeSample(Sample16(pcm[0], pcm[1])) == 0xFF by {
      assert Sample16(0, 0) == 0;
      assert Segment(Bias / 4) == 0 && Pow2(1) == 2;
    }
    assert pcm[2..] == [];
    assert Lin2Ulaw(pcm) == [EncodeSample(Sample16(pcm[0], pcm[1]))] + Lin2Ulaw(pcm[2..]);
  }
}
