/** The two uncompressed payload formats: 16-bit little-endian and 24-bit big-endian stereo samples. */
module PcmPayloads {
  import opened Words
  import opened WireFields

  const SCALE_16 := 32767
  const SCALE_24 := 8388607
  const TWO_23 := 0x80_0000
  const TWO_24 := 0x100_0000

  function ClampReal(v: real): real {
    if v < -1.0 then -1.0 else if v > 1.0 then 1.0 else v
  }

  /** Conversion of a float to an integer drops the fraction, towards zero. */
  function Truncated(v: real): int {
    if v >= 0.0 then v.Floor else -((-v).Floor)
  }

  function Quantised(v: real, scale: int): int {
    Truncated(Scaled(ClampReal(v), scale))
  }

  function Scaled(v: real, scale: int): real {
    v * scale as real
  }

  lemma ScaledFits(v: real, scale: int)
    requires -1.0 <= v <= 1.0 && scale > 0
    ensures -(scale as real) <= Scaled(v, scale) <= scale as real
    ensures v >= 0.0 <==> Scaled(v, scale) >= 0.0
  {
    var s := scale as real;
    ProductWithin(v, s, v * s);
  }

  lemma ProductWithin(v: real, s: real, product: real)
    requires -1.0 <= v <= 1.0 && s > 0.0 && product == v * s
    ensures -s <= product <= s && (v >= 0.0 <==> product >= 0.0)
  {
    SignOfProduct(v, s);
    SignOfProduct(1.0 - v, s);
    SignOfProduct(1.0 + v, s);
    assert (1.0 - v) * s == s - product;
    assert (1.0 + v) * s == s + product;
  }

  lemma SignOfProduct(a: real, b: real)
    requires b > 0.0
    ensures a >= 0.0 <==> a * b >= 0.0
  {
  }

  lemma TruncatedIsClose(exact: real, bound: int)
    requires -(bound as real) <= exact <= bound as real
    ensures -bound <= Truncated(exact) <= bound
    ensures var q := Truncated(exact) as real;
            if exact >= 0.0 then exact - 1.0 < q <= exact && 0.0 <= q else exact <= q < exact + 1.0 && q <= 0.0
  {
  }

  /** Quantising stays in range, never away from zero, and within one step of the scaled sample. */
  lemma QuantisedIsClose(v: real, scale: int)
    requires scale > 0
    ensures -scale <= Quantised(v, scale) <= scale
    ensures var exact, q := Scaled(ClampReal(v), scale), Quantised(v, scale) as real;
            if v >= 0.0 then exact - 1.0 < q <= exact && 0.0 <= q else exact <= q < exact + 1.0 && q <= 0.0
  {
    ScaledFits(ClampReal(v), scale);
    TruncatedIsClose(Scaled(ClampReal(v), scale), scale);
    hide Truncated, Scaled;
  }

  // Two's complement bytes.

  function Little16(s: int): Bytes {
    var u := s % TWO_16;
    [u % TWO_8, u / TWO_8]
  }

  function Big24(s: int): Bytes {
    var u := s % TWO_24;
    [u / TWO_16, u / TWO_8 % TWO_8, u % TWO_8]
  }

  function SignedOf(u: int, half: int): int {
    if u < half then u else u - 2 * half
  }

  function FromLittle16(b: Bytes): int
    requires |b| == 2
  {
    SignedOf(b[0] + TWO_8 * b[1], 0x8000)
  }

  function FromBig24(b: Bytes): int
    requires |b| == 3
  {
    SignedOf(b[0] * TWO_16 + b[1] * TWO_8 + b[2], TWO_23)
  }

  lemma Little16RoundTrip(s: int)
    requires -0x8000 <= s < 0x8000
    ensures |Little16(s)| == 2 && FromLittle16(Little16(s)) == s
  {
    var u := s % TWO_16;
    assert u == u % TWO_8 + TWO_8 * (u / TWO_8);
  }

  lemma Big24RoundTrip(s: int)
    requires -TWO_23 <= s < TWO_23
    ensures |Big24(s)| == 3 && FromBig24(Big24(s)) == s
  {
    var u := s % TWO_24;
    assert u == u % TWO_8 + TWO_8 * (u / TWO_8 % TWO_8) + TWO_16 * (u / TWO_16);
  }

  // PCM16: every sample in order.

  function Pcm16Payload(samples: seq<real>): Bytes {
    if samples == [] then []
    else Pcm16Payload(samples[..|samples| - 1]) + Little16(Quantised(samples[|samples| - 1], SCALE_16))
  }

  method EncodePcm16(samples: seq<real>) returns (payload: Bytes)
    ensures payload == Pcm16Payload(samples)
  {
    hide Little16, Quantised;
    payload := [];
    for k := 0 to |samples|
      invariant payload == Pcm16Payload(samples[..k])
    {
      assert samples[..k + 1][..k] == samples[..k];
      payload := payload + Little16(Quantised(samples[k], SCALE_16));
    }
    assert samples[..|samples|] == samples;
  }

  lemma SliceOfPrefix(a: Bytes, b: Bytes, from: nat, to: nat)
    requires from <= to <= |a|
    ensures (a + b)[from..to] == a[from..to]
  {
  }

  lemma {:induction false} Pcm16Carries(samples: seq<real>, k: nat)
    requires k < |samples|
    ensures |Pcm16Payload(samples)| == 2 * |samples|
    ensures FromLittle16(Pcm16Payload(samples)[2 * k..2 * k + 2]) == Quantised(samples[k], SCALE_16)
  {
    hide Little16, Quantised, FromLittle16;
    var n := |samples| - 1;
    var q := Quantised(samples[n], SCALE_16);
    QuantisedIsClose(samples[n], SCALE_16);
    Little16RoundTrip(q);
    Pcm16Size(samples[..n]);
    if k < n {
      Pcm16Carries(samples[..n], k);
      SliceOfPrefix(Pcm16Payload(samples[..n]), Little16(q), 2 * k, 2 * k + 2);
    } else {
      assert Pcm16Payload(samples)[2 * k..2 * k + 2] == Little16(q);
    }
  }

  lemma {:induction false} Pcm16Size(samples: seq<real>)
    ensures |Pcm16Payload(samples)| == 2 * |samples|
  {
    if samples != [] {
      Pcm16Size(samples[..|samples| - 1]);
    }
  }

  // PCM24: the first two channels of every whole frame; a mono sample goes to both sides.

  predicate FrameIn(samples: seq<real>, channels: nat, f: nat) {
    channels > 0 && f < |samples| / channels
  }

  lemma MulMonotone(a: nat, b: nat, c: nat)
    requires a <= b
    ensures a * c <= b * c
  {
  }

  lemma FrameFits(samples: seq<real>, channels: nat, f: nat)
    requires FrameIn(samples, channels, f)
    ensures 0 <= f * channels && f * channels + channels <= |samples|
  {
    var n := |samples| / channels;
    assert |samples| == n * channels + |samples| % channels;
    MulMonotone(f + 1, n, channels);
    assert (f + 1) * channels == f * channels + channels;
  }

  function Left(samples: seq<real>, channels: nat, f: nat): real
    requires FrameIn(samples, channels, f)
  {
    FrameFits(samples, channels, f);
    samples[f * channels]
  }

  function Right(samples: seq<real>, channels: nat, f: nat): real
    requires FrameIn(samples, channels, f)
  {
    FrameFits(samples, channels, f);
    if channels > 1 then samples[f * channels + 1] else samples[f * channels]
  }

  function StereoBytes(left: real, right: real): (b: Bytes)
    ensures |b| == 6
  {
    Big24(Quantised(left, SCALE_24)) + Big24(Quantised(right, SCALE_24))
  }

  /** The first n frames. */
  function Pcm24Payload(samples: seq<real>, channels: nat, n: nat): (b: Bytes)
    requires channels > 0 && n <= |samples| / channels
    ensures |b| == 6 * n
  {
    if n == 0 then []
    else
      Pcm24Payload(samples, channels, n - 1)
      + StereoBytes(Left(samples, channels, n - 1), Right(samples, channels, n - 1))
  }

  method EncodePcm24(samples: seq<real>, channels: nat) returns (payload: Bytes)
    requires channels > 0
    ensures payload == Pcm24Payload(samples, channels, |samples| / channels)
  {
    payload := [];
    hide StereoBytes;
    for f := 0 to |samples| / channels
      invariant payload == Pcm24Payload(samples, channels, f)
    {
      FrameFits(samples, channels, f);
      var left := samples[f * channels];
      var right := if channels > 1 then samples[f * channels + 1] else left;
      payload := payload + StereoBytes(left, right);
    }
  }

  lemma StereoCarries(left: real, right: real)
    ensures FromBig24(StereoBytes(left, right)[..3]) == Quantised(left, SCALE_24)
    ensures FromBig24(StereoBytes(left, right)[3..]) == Quantised(right, SCALE_24)
  {
    QuantisedIsClose(left, SCALE_24);
    QuantisedIsClose(right, SCALE_24);
    Big24RoundTrip(Quantised(left, SCALE_24));
    Big24RoundTrip(Quantised(right, SCALE_24));
    hide Big24, Quantised, FromBig24;
    assert StereoBytes(left, right)[..3] == Big24(Quantised(left, SCALE_24));
    assert StereoBytes(left, right)[3..] == Big24(Quantised(right, SCALE_24));
  }

  lemma {:induction false} Pcm24Carries(samples: seq<real>, channels: nat, n: nat, f: nat)
    requires channels > 0 && f < n <= |samples| / channels
    ensures var b := Pcm24Payload(samples, channels, n)[6 * f..6 * f + 6];
            && FromBig24(b[..3]) == Quantised(Left(samples, channels, f), SCALE_24)
            && FromBig24(b[3..]) == Quantised(Right(samples, channels, f), SCALE_24)
  {
    hide StereoBytes, Left, Right, FromBig24, Quantised;
    var last := StereoBytes(Left(samples, channels, n - 1), Right(samples, channels, n - 1));
    if f < n - 1 {
      Pcm24Carries(samples, channels, n - 1, f);
      SliceOfPrefix(Pcm24Payload(samples, channels, n - 1), last, 6 * f, 6 * f + 6);
    } else {
      StereoCarries(Left(samples, channels, f), Right(samples, channels, f));
      assert Pcm24Payload(samples, channels, n)[6 * f..6 * f + 6] == last;
    }
  }
}
