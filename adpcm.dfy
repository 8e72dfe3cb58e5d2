// ADPCM codecs of v0.83/console_player/adpcm.c: the YM2608 ADPCM-B encoder
// (`ym2608_adpcm_encode`) and the OKIM6258 decoder (`okim6258_adpcm_decode`).
// Both are written as a loop over samples that carries a small predictor
// state; each loop is proved against a function that gives the state after
// n samples.

module Adpcm {
  import opened Bytes

  type i16 = x: int | -0x8000 <= x < 0x8000

  function Abs(x: int): nat { if x < 0 then -x else x }

  // ---------------------------------------------------------------- encoder

  /** `F`: the step-size adaptation factors, in 64ths, indexed by the quantised magnitude. */
  function F(l31: int): int
  {
    if l31 < 4 then 57 else if l31 == 4 then 77 else if l31 == 5 then 102 else if l31 == 6 then 128 else 153
  }
  const MIN_STEP: int := 127
  const MAX_STEP: int := 0x5fff

  /** Encoder state: the reconstructed signal `x` and the step size `D`. */
  datatype EncState = EncState(x: int, d: int)

  /** One encoded sample: its 4-bit code and the state after it. */
  datatype EncOut = EncOut(nibble: int, next: EncState)

  const ENC_START: EncState := EncState(0, MIN_STEP)

  /** The quantised magnitude of a difference: quarter steps, saturated at 7. */
  function Quantise(diff: int, d: int): (l: int)
    requires MIN_STEP <= d
    ensures 0 <= l <= 7
  {
    Min(Abs(diff) * 4 / d, 7)
  }

  /**
   * The new prediction: `x + ((1 - 2·L4)·(2·L31 + 1)·D) >> 3`. It moves up
   * exactly when the sign bit is clear.
   */
  function Predict(x: int, l4: int, l31: int, d: int): (x': int)
    requires l4 == 0 || l4 == 1
    requires 0 <= l31 <= 7 && MIN_STEP <= d <= MAX_STEP
  {
    // `>> 3` on a C int is a floor division, as Dafny's `/` by a positive constant
    x + (1 - 2 * l4) * (l31 * 2 + 1) * d / 8
  }

  lemma PredictMoves(x: int, l4: int, l31: int, d: int)
    requires l4 == 0 || l4 == 1
    requires 0 <= l31 <= 7 && MIN_STEP <= d <= MAX_STEP
    ensures Predict(x, l4, l31, d) > x <==> l4 == 0
  {
    var m := (l31 * 2 + 1) * d;
    assert m >= MIN_STEP;
    if l4 == 0 {
      assert (1 - 2 * l4) * (l31 * 2 + 1) * d == m;
    } else {
      assert (1 - 2 * l4) * (l31 * 2 + 1) * d == -m;
    }
  }

  /** The new step size: `(F[L31]·D) >> 6`, clamped to [127, 0x5fff]. */
  function Adapt(d: int, l31: int): (d': int)
    requires 0 <= l31 <= 7 && MIN_STEP <= d <= MAX_STEP
    ensures MIN_STEP <= d' <= MAX_STEP
  {
    var n := F(l31) * d / 64;
    if n > MAX_STEP then MAX_STEP else if n < MIN_STEP then MIN_STEP else n
  }

  /**
   * One iteration of the encoder loop. The code's bit 3 is the sign of the
   * difference to the prediction and bits 2..0 its quantised magnitude; the
   * prediction always moves toward the sample, and the new step size stays
   * within [127, 0x5fff].
   */
  function EncStep(s: EncState, sample: int): (r: EncOut)
    requires MIN_STEP <= s.d <= MAX_STEP
    ensures 0 <= r.nibble < 16
    ensures MIN_STEP <= r.next.d <= MAX_STEP
  {
    var l4 := if sample < s.x then 1 else 0;
    var l31 := Quantise(sample - s.x, s.d);
    EncOut(l4 * 8 + l31, EncState(Predict(s.x, l4, l31, s.d), Adapt(s.d, l31)))
  }

  /**
   * The code's bit 3 is the sign of the difference to the prediction, bits
   * 2..0 its quantised magnitude, and the prediction moves toward the sample.
   */
  lemma EncStepCode(s: EncState, sample: int)
    requires MIN_STEP <= s.d <= MAX_STEP
    ensures var r := EncStep(s, sample);
      r.nibble / 8 == (if sample < s.x then 1 else 0) &&
      r.nibble % 8 == Quantise(sample - s.x, s.d) &&
      (r.next.x > s.x <==> sample >= s.x)
  {
    var l4 := if sample < s.x then 1 else 0;
    PredictMoves(s.x, l4, Quantise(sample - s.x, s.d), s.d);
  }

  /** Encoder state after the first `n` samples; its step size is always clamped. */
  function EncStateAt(pcm: seq<i16>, n: nat): (s: EncState)
    requires n <= |pcm|
    ensures MIN_STEP <= s.d <= MAX_STEP
  {
    if n == 0 then ENC_START else EncStep(EncStateAt(pcm, n - 1), pcm[n - 1]).next
  }

  /** The 4-bit code of sample `n`. */
  function EncNibble(pcm: seq<i16>, n: nat): (c: int)
    requires n < |pcm|
    ensures 0 <= c < 16
  {
    EncStep(EncStateAt(pcm, n), pcm[n]).nibble
  }

  /** Two codes in one byte, the first in the high nibble. */
  function Pack(hi: int, lo: int): (b: byte)
    requires 0 <= hi < 16 && 0 <= lo < 16
  {
    hi * 16 + lo
  }

  /**
   * `ym2608_adpcm_encode`: `|pcm| / 2` bytes, byte k holding the codes of
   * samples 2k (high nibble) and 2k+1 (low nibble); a trailing odd sample
   * is encoded but never stored.
   */
  method Encode(pcm: seq<i16>) returns (adpcm: array<byte>)
    ensures fresh(adpcm)
    ensures adpcm.Length == |pcm| / 2
    ensures Stored(adpcm[..], EncCodes(pcm, |pcm|), |pcm|)
  {
    adpcm := new byte[|pcm| / 2];
    var x := 0;
    var d := MIN_STEP;
    var dh := 0;
    var n := 0;
    ghost var codes: seq<int> := [];
    while n < |pcm|
      invariant 0 <= n <= |pcm|
      invariant EncState(x, d) == EncStateAt(pcm, n)
      invariant codes == EncCodes(pcm, n)
      invariant n % 2 == 1 ==> dh == codes[n - 1]
      invariant Stored(adpcm[..], codes, n)
    {
      var r := EncStep(EncState(x, d), pcm[n]);
      x, d := r.next.x, r.next.d;
      ghost var before := adpcm[..];
      if n % 2 == 1 {
        adpcm[n / 2] := Pack(dh, r.nibble);
      } else {
        dh := r.nibble;
      }
      StoredStep(before, adpcm[..], codes, n, r.nibble);
      Parity(n);
      codes := codes + [r.nibble];
      n := n + 1;
    }
  }

  lemma Parity(n: nat)
    ensures (n + 1) % 2 == 1 <==> n % 2 == 0
  {
  }

  /**
   * Byte k of `a` holds codes 2k and 2k+1, for every k whose two samples are
   * among the first `n`.
   */
  predicate Stored(a: seq<byte>, codes: seq<int>, n: nat)
  {
    forall k :: 0 <= k < |a| && 2 * k + 1 < n && 2 * k + 1 < |codes| ==>
      0 <= codes[2 * k] < 16 && 0 <= codes[2 * k + 1] < 16 && a[k] == Pack(codes[2 * k], codes[2 * k + 1])
  }

  /**
   * One sample more: after an even sample nothing is stored, after an odd one
   * its code and the one before it go into byte n / 2.
   */
  lemma StoredStep(a: seq<byte>, a': seq<byte>, codes: seq<int>, n: nat, code: int)
    requires |codes| == n && (forall i :: 0 <= i < n ==> 0 <= codes[i] < 16) && 0 <= code < 16
    requires Stored(a, codes, n) && |a'| == |a|
    requires n % 2 == 1 && n / 2 < |a| ==> a' == a[n / 2 := Pack(codes[n - 1], code)]
    requires n % 2 == 0 || n / 2 >= |a| ==> a' == a
    ensures Stored(a', codes + [code], n + 1)
  {
    var c := codes + [code];
    forall k | 0 <= k < |a'| && 2 * k + 1 < n + 1 && 2 * k + 1 < |c|
      ensures 0 <= c[2 * k] < 16 && 0 <= c[2 * k + 1] < 16 && a'[k] == Pack(c[2 * k], c[2 * k + 1])
    {
      if 2 * k + 1 == n {
        assert k == n / 2;
      }
    }
  }

  /** The codes of the first `n` samples, in order. */
  function EncCodes(pcm: seq<i16>, n: nat): (c: seq<int>)
    requires n <= |pcm|
    ensures |c| == n && forall i :: 0 <= i < n ==> 0 <= c[i] < 16
  {
    if n == 0 then [] else EncCodes(pcm, n - 1) + [EncNibble(pcm, n - 1)]
  }

  /** Code i of any prefix holding it is the code of sample i. */
  lemma {:induction false} EncCodesAt(pcm: seq<i16>, n: nat, i: nat)
    requires i < n <= |pcm|
    ensures EncCodes(pcm, n)[i] == EncNibble(pcm, i)
  {
    hide EncNibble;
    if i < n - 1 {
      EncCodesAt(pcm, n - 1, i);
    }
  }

  /** A packed byte gives back both codes: the high nibble and the low one. */
  lemma PackUnpacks(hi: int, lo: int)
    requires 0 <= hi < 16 && 0 <= lo < 16
    ensures Pack(hi, lo) / 16 == hi && Pack(hi, lo) % 16 == lo
  {
  }

  // ---------------------------------------------------------------- decoder

  const STEP_TABLE: seq<int> :=
    [16, 17, 19, 21, 23, 25, 28, 31, 34, 37, 41, 45] +
    [50, 55, 60, 66, 73, 80, 88, 97, 107, 118, 130, 143] +
    [157, 173, 190, 209, 230, 253, 279, 307, 337, 371, 408, 449] +
    [494, 544, 598, 658, 724, 796, 876, 963, 1060, 1166, 1282, 1411, 1552]
  const INDEX_SHIFT: seq<int> := [-1, -1, -1, -1, 2, 4, 6, 8]
  const MAX_INDEX: int := 48

  lemma StepTableBounds(i: int)
    requires 0 <= i <= MAX_INDEX
    ensures 16 <= STEP_TABLE[i] <= 1552
  {
  }

  /**
   * `M`: the signed difference a code stands for at step index `step`; bit 3
   * is the sign, bits 2..0 select a, a/2 and a/4, and a/8 is always added.
   */
  function Delta(step: int, nib: int): (r: int)
    requires 0 <= step <= MAX_INDEX && 0 <= nib < 16
    ensures nib < 8 ==> r > 0
    ensures nib >= 8 ==> r < 0
  {
    StepTableBounds(step);
    var a := STEP_TABLE[step];
    var p := if nib >= 8 then -1 else 1;
    var l3 := if nib % 8 >= 4 then a else 0;
    var l2 := if nib % 4 >= 2 then a / 2 else 0;
    var l1 := if nib % 2 == 1 then a / 4 else 0;
    p * (l3 + l2 + l1 + a / 8)
  }

  /** The sign bit only negates: codes n and n+8 stand for opposite differences. */
  lemma DeltaSignSymmetric(step: int, nib: int)
    requires 0 <= step <= MAX_INDEX && 0 <= nib < 8
    ensures Delta(step, nib + 8) == -Delta(step, nib)
  {
  }

  /** A larger magnitude code always stands for a strictly larger difference. */
  lemma {:induction false} DeltaMagnitudeIncreasing(step: int, n1: int, n2: int)
    requires 0 <= step <= MAX_INDEX && 0 <= n1 < n2 < 8
    ensures Delta(step, n1) < Delta(step, n2)
  {
    StepTableBounds(step);
    var a := STEP_TABLE[step];
    assert a / 2 + a / 4 < a;
    assert a / 4 < a / 2;
    assert a / 4 > 0;
  }

  /** Decoder state: the output accumulator and the step index. */
  datatype DecState = DecState(out: int, step: int)

  const DEC_START: DecState := DecState(0, 0)

  /** One iteration of the decoder loop; the step index stays within [0, 48]. */
  function DecStep(s: DecState, nib: int): (r: DecState)
    requires 0 <= s.step <= MAX_INDEX && 0 <= nib < 16
    ensures 0 <= r.step <= MAX_INDEX
    ensures r.step == Max(0, Min(MAX_INDEX, s.step + INDEX_SHIFT[nib % 8]))
  {
    var sample := Delta(s.step, nib);
    // `>> 8` on a C int is a floor division
    var out := (sample * 256 + s.out * 245) / 256;
    var step := s.step + INDEX_SHIFT[nib % 8];
    DecState(out, if step > MAX_INDEX then MAX_INDEX else if step < 0 then 0 else step)
  }

  /** Code `i` of the input: the low nibble of each byte comes first. */
  function DecNibble(adpcm: seq<byte>, i: nat): (c: int)
    requires i < 2 * |adpcm|
    ensures 0 <= c < 16
    ensures i % 2 == 0 ==> c == adpcm[i / 2] % 16
    ensures i % 2 == 1 ==> c == adpcm[i / 2] / 16
  {
    if i % 2 == 1 then adpcm[i / 2] / 16 else adpcm[i / 2] % 16
  }

  /** Decoder state after the first `i` codes. */
  function DecStateAt(adpcm: seq<byte>, i: nat): (s: DecState)
    requires i <= 2 * |adpcm|
    ensures 0 <= s.step <= MAX_INDEX
  {
    if i == 0 then DEC_START else DecStep(DecStateAt(adpcm, i - 1), DecNibble(adpcm, i - 1))
  }

  /** Wrap-around of a C conversion to `int16_t`. */
  function Wrap16(v: int): i16
  {
    (v + 0x8000) % 0x1_0000 - 0x8000
  }

  /** Saturation to the `int16_t` range. */
  function Saturate16(v: int): (r: i16)
    ensures -0x8000 <= v < 0x8000 ==> r == v
    ensures v >= 0 <==> r >= 0
  {
    if v >= 0x8000 then 0x7fff else if v < -0x8000 then -0x8000 else v
  }

  /** Sample `i` as written: `out << 4` stored into an `int16_t`. */
  function DecSampleAsWritten(adpcm: seq<byte>, i: nat): i16
    requires i < 2 * |adpcm|
  {
    Wrap16(DecStateAt(adpcm, i + 1).out * 16)
  }

  /**
   * Sample `i` as intended: `out << 4` saturated to the 16-bit range, so a
   * positive accumulator never comes out negative and vice versa.
   */
  function DecSample(adpcm: seq<byte>, i: nat): i16
    requires i < 2 * |adpcm|
  {
    Saturate16(DecStateAt(adpcm, i + 1).out * 16)
  }

  /** A decoded sample has the sign of the accumulator, and is exact when it fits. */
  lemma DecSampleSaturates(adpcm: seq<byte>, i: nat)
    requires i < 2 * |adpcm|
    ensures DecSample(adpcm, i) >= 0 <==> DecStateAt(adpcm, i + 1).out >= 0
    ensures -0x800 <= DecStateAt(adpcm, i + 1).out < 0x800 ==>
      DecSample(adpcm, i) == DecStateAt(adpcm, i + 1).out * 16
  {
  }

  /**
   * Three bytes of 0x77 drive the accumulator to 2424 after six codes; as
   * written, 2424 << 4 = 38784 wraps to -26752 in the `int16_t` output.
   */
  lemma {:induction false} DecodeWrapsAsWritten(a: seq<byte>)
    requires a == [0x77, 0x77, 0x77]
    ensures DecStateAt(a, 6).out == 2424
    ensures DecSampleAsWritten(a, 5) == -26752
    ensures DecSample(a, 5) == 0x7fff
  {
    SevensFirstHalf(a);
    SevensSecondHalf(a);
    assert Wrap16(2424 * 16) == -26752;
    assert Saturate16(2424 * 16) == 0x7fff;
  }

  lemma SevensFirstHalf(a: seq<byte>)
    requires a == [0x77, 0x77, 0x77]
    ensures DecStateAt(a, 3) == DecState(223, 24)
  {
    SevenSteps();
    SevenStep(a, 0, DecState(0, 0));
    SevenStep(a, 1, DecState(30, 8));
    SevenStep(a, 2, DecState(91, 16));
  }

  lemma SevensSecondHalf(a: seq<byte>)
    requires a == [0x77, 0x77, 0x77] && DecStateAt(a, 3) == DecState(223, 24)
    ensures DecStateAt(a, 6) == DecState(2424, 48)
  {
    SevenSteps();
    SevenStep(a, 3, DecState(223, 24));
    SevenStep(a, 4, DecState(506, 32));
    SevenStep(a, 5, DecState(1115, 40));
  }

  /** The accumulator and step index through six codes 7. */
  lemma SevenSteps()
    ensures DecStep(DecState(0, 0), 7) == DecState(30, 8)
    ensures DecStep(DecState(30, 8), 7) == DecState(91, 16)
    ensures DecStep(DecState(91, 16), 7) == DecState(223, 24)
    ensures DecStep(DecState(223, 24), 7) == DecState(506, 32)
    ensures DecStep(DecState(506, 32), 7) == DecState(1115, 40)
    ensures DecStep(DecState(1115, 40), 7) == DecState(2424, 48)
  {
    SevenDeltas();
  }

  /** Code 7 at the step indices the accumulator above passes through. */
  lemma SevenDeltas()
    ensures Delta(0, 7) == 30 && Delta(8, 7) == 63 && Delta(16, 7) == 136
    ensures Delta(24, 7) == 293 && Delta(32, 7) == 631 && Delta(40, 7) == 1357
  {
    assert STEP_TABLE[0] == 16 && STEP_TABLE[8] == 34 && STEP_TABLE[16] == 73;
    assert STEP_TABLE[24] == 157 && STEP_TABLE[32] == 337 && STEP_TABLE[40] == 724;
  }

  /** Decoding one more code 7 of an input made of 0x77 bytes. */
  lemma SevenStep(a: seq<byte>, i: nat, s: DecState)
    requires i < 2 * |a| && a[i / 2] == 0x77 && DecStateAt(a, i) == s
    ensures DecStateAt(a, i + 1) == DecStep(s, 7)
  {
  }

  /** The first `n` entries of `p` are the decoded samples of `adpcm`. */
  predicate Decoded(p: seq<i16>, adpcm: seq<byte>, n: nat)
  {
    forall j :: 0 <= j < n && j < |p| && j < 2 * |adpcm| ==> p[j] == DecSample(adpcm, j)
  }

  /** Storing sample `i` extends the decoded prefix by one. */
  lemma DecodedStep(p: seq<i16>, p': seq<i16>, adpcm: seq<byte>, i: nat)
    requires i < |p| && i < 2 * |adpcm| && Decoded(p, adpcm, i)
    requires p' == p[i := DecSample(adpcm, i)]
    ensures Decoded(p', adpcm, i + 1)
  {
  }

  /**
   * `okim6258_adpcm_decode`: two samples per input byte, low nibble first,
   * each the saturated `out << 4` of the accumulator after its code.
   */
  method Decode(adpcm: seq<byte>) returns (pcm: array<i16>)
    ensures fresh(pcm)
    ensures pcm.Length == 2 * |adpcm|
    ensures Decoded(pcm[..], adpcm, pcm.Length)
  {
    hide DecStep;
    pcm := new i16[2 * |adpcm|];
    var out := 0;
    var step := 0;
    var i := 0;
    while i < 2 * |adpcm|
      invariant 0 <= i <= 2 * |adpcm|
      invariant DecState(out, step) == DecStateAt(adpcm, i)
      invariant Decoded(pcm[..], adpcm, i)
    {
      var nib := if i % 2 == 1 then adpcm[i / 2] / 16 else adpcm[i / 2] % 16;
      assert nib == DecNibble(adpcm, i);
      var s := DecStep(DecState(out, step), nib);
      assert s == DecStateAt(adpcm, i + 1);
      out, step := s.out, s.step;
      ghost var before := pcm[..];
      pcm[i] := Saturate16(out * 16);
      DecodedStep(before, pcm[..], adpcm, i);
      i := i + 1;
    }
  }
}
