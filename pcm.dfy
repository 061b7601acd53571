/** Decoding of a raw little-endian signed 16-bit mono PCM buffer into sample values, and the
    peak-amplitude silence gate the live handler applies to them. */
module PcmAudio {

  newtype byte = b: int | 0 <= b < 256

  predicate IsInt16(x: int)
  {
    -32768 <= x <= 32767
  }

  /** The signed sample held by a little-endian byte pair. */
  function SampleOf(lo: byte, hi: byte): (s: int)
    ensures IsInt16(s)
  {
    var u := lo as int + 256 * hi as int;
    if u >= 32768 then u - 65536 else u
  }

  /** `np.frombuffer(buf, np.int16)` for a buffer of even length: one sample per byte pair,
      in order. */
  function Samples(b: seq<byte>): (s: seq<int>)
    requires |b| % 2 == 0
    ensures |s| == |b| / 2
  {
    seq(|b| / 2, i requires 0 <= i < |b| / 2 => SampleOf(b[2 * i], b[2 * i + 1]))
  }

  /** Every decoded sample is a 16-bit signed value, so `sample / 32768` lies in
      [-1, 32767/32768]. */
  lemma SamplesInRange(b: seq<byte>)
    requires |b| % 2 == 0
    ensures forall i :: 0 <= i < |Samples(b)| ==> IsInt16(Samples(b)[i])
  {
  }

  /** The byte pair a sample is stored as: the partner of `SampleOf`. */
  function BytesOf(s: int): (p: seq<byte>)
    requires IsInt16(s)
    ensures |p| == 2 && SampleOf(p[0], p[1]) == s
  {
    var u := if s < 0 then s + 65536 else s;
    [(u % 256) as byte, (u / 256) as byte]
  }

  function Encode(samples: seq<int>): (b: seq<byte>)
    requires forall i :: 0 <= i < |samples| ==> IsInt16(samples[i])
    ensures |b| == 2 * |samples|
  {
    if samples == [] then [] else BytesOf(samples[0]) + Encode(samples[1..])
  }

  lemma Halve(n: nat)
    ensures (2 * n) % 2 == 0 && (2 * n) / 2 == n
  {
  }

  /** Sample `i` is stored at bytes `2i` and `2i + 1` of the encoding. */
  lemma {:induction false} EncodeAt(samples: seq<int>, i: nat)
    requires forall k :: 0 <= k < |samples| ==> IsInt16(samples[k])
    requires i < |samples|
    ensures Encode(samples)[2 * i..2 * i + 2] == BytesOf(samples[i])
  {
    if i > 0 {
      EncodeAt(samples[1..], i - 1);
      assert Encode(samples)[2..] == Encode(samples[1..]);
    }
  }

  lemma DecodeEncodeAt(samples: seq<int>, i: nat)
    requires forall k :: 0 <= k < |samples| ==> IsInt16(samples[k])
    requires i < |samples|
    ensures |Encode(samples)| % 2 == 0 && |Samples(Encode(samples))| == |samples|
    ensures Samples(Encode(samples))[i] == samples[i]
  {
    var b := Encode(samples);
    Halve(|samples|);
    EncodeAt(samples, i);
    var p := BytesOf(samples[i]);
    var j := 2 * i;
    assert b[j] == p[0] && b[j + 1] == p[1];
  }

  /** Decoding what was encoded gives the samples back. */
  lemma DecodeEncode(samples: seq<int>)
    requires forall i :: 0 <= i < |samples| ==> IsInt16(samples[i])
    ensures Samples(Encode(samples)) == samples
  {
    Halve(|samples|);
    forall i | 0 <= i < |samples| ensures Samples(Encode(samples))[i] == samples[i] {
      DecodeEncodeAt(samples, i);
    }
  }

  /** Encoding what was decoded gives the bytes back: decoding loses nothing. */
  lemma EncodeDecode(b: seq<byte>)
    requires |b| % 2 == 0
    ensures Encode(Samples(b)) == b
  {
    var s := Samples(b);
    var e := Encode(s);
    forall j | 0 <= j < |b| ensures e[j] == b[j] {
      var i := j / 2;
      EncodeAt(s, i);
      var p := BytesOf(s[i]);
      assert p[0] == b[2 * i] && p[1] == b[2 * i + 1];
      assert e[2 * i] == p[0] && e[2 * i + 1] == p[1];
    }
  }

  // ---------------------------------------------------------------------------
  // Silence gate

  function Abs(x: int): nat
  {
    if x < 0 then -x else x
  }

  /** `abs(s / 32768) < 0.01`, stated without floating point: `100 * |s| < 32768`. */
  predicate Quiet(s: int)
  {
    100 * Abs(s) < 32768
  }

  /** The largest absolute sample value: `np.abs(audio).max()` up to the scale factor. */
  function Peak(samples: seq<int>): (p: nat)
    requires |samples| > 0
    ensures forall i :: 0 <= i < |samples| ==> Abs(samples[i]) <= p
    ensures exists i :: 0 <= i < |samples| && Abs(samples[i]) == p
  {
    if |samples| == 1 then Abs(samples[0])
    else
      var rest := Peak(samples[1..]);
      assert forall i :: 1 <= i < |samples| ==> samples[1..][i - 1] == samples[i];
      if Abs(samples[0]) >= rest then Abs(samples[0]) else rest
  }

  /** The silence test of the live handler, on a non-empty frame. */
  predicate IsSilence(samples: seq<int>)
    requires |samples| > 0
  {
    Quiet(Peak(samples))
  }

  /** A frame is silence exactly when every one of its samples is quiet. */
  lemma SilenceIffAllQuiet(samples: seq<int>)
    requires |samples| > 0
    ensures IsSilence(samples) <==> forall i :: 0 <= i < |samples| ==> Quiet(samples[i])
  {
    var k :| 0 <= k < |samples| && Abs(samples[k]) == Peak(samples);
    assert Quiet(samples[k]) <==> IsSilence(samples);
  }

  /** In sample values the threshold falls between 327 and 328. */
  lemma QuietBounds(s: int)
    ensures Quiet(s) <==> -327 <= s <= 327
  {
  }

  /** An all-zero frame is silence; a frame holding a sample of amplitude 0.5 is not. */
  lemma SilenceExamples(samples: seq<int>)
    requires |samples| > 0
    ensures (forall i :: 0 <= i < |samples| ==> samples[i] == 0) ==> IsSilence(samples)
    ensures (exists i :: 0 <= i < |samples| && samples[i] == 16384) ==> !IsSilence(samples)
  {
    SilenceIffAllQuiet(samples);
  }
}
