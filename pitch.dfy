// The OPM key-code computation shared by every transcoder (`freqToOPMNote`,
// `freq_to_opm_note`). The one transcendental step, `12·log2(f / 277.2)`, is
// a parameter; everything after it (clamping, splitting the key into octave,
// note and fraction, packing the key code) is modelled exactly.

module OpmPitch {
  import opened Bytes

  /** Semitone index within an octave to the OPM note code (codes 3, 7, 11, 15 are unused). */
  const KEY_TO_NOTE: seq<int> := [0, 1, 2, 4, 5, 6, 8, 9, 10, 12, 13, 14]

  /** An OPM key code (KC, octave in bits 6..4, note in bits 3..0) and key fraction (KF, 6 bits). */
  datatype Note = Note(kc: byte, kf: byte)

  /**
   * `semitones(f)` stands for `12·log2(f / 277.2)`: the distance in semitones
   * from C#4 of a positive frequency already scaled by the clock ratio.
   */
  type Semitones = real -> real

  function RMax(a: real, b: real): real { if a >= b then a else b }

  function OrderKey(n: Note): int { n.kc * 64 + n.kf }

  /** Splits a non-negative fractional key number into KC and KF. */
  function KeyToNote(key: real): (n: Note)
    requires key >= 0.0
    ensures n.kf < 64
    ensures n.kc / 16 == Min(7, key.Floor / 12)
    ensures n.kc % 16 == KEY_TO_NOTE[key.Floor % 12]
    ensures n.kc % 16 != 3 && n.kc % 16 != 7 && n.kc % 16 != 11 && n.kc % 16 != 15
  {
    var k := key.Floor;
    var frac := key - k as real;
    var kf := (frac * 64.0).Floor;
    Note(Min(7, k / 12) * 16 + KEY_TO_NOTE[k % 12], kf)
  }

  /**
   * `freqToOPMNote`: a frequency that is not positive yields KC = KF = 0;
   * otherwise the key `60 + semitones(freq) + detune` is floored at 0 and split.
   */
  function FreqToNote(semitones: Semitones, freq: real, detune: real): (n: Note)
    ensures freq <= 0.0 ==> n == Note(0, 0)
    ensures n.kf < 64
  {
    if freq <= 0.0 then Note(0, 0) else KeyToNote(RMax(0.0, 60.0 + semitones(freq) + detune))
  }

  lemma FloorMonotone(a: real, b: real)
    requires a <= b
    ensures a.Floor <= b.Floor
  {
  }

  lemma KeyTableIncreasing(i: int, j: int)
    requires 0 <= i < j < 12
    ensures KEY_TO_NOTE[i] < KEY_TO_NOTE[j]
  {
  }

  /**
   * Below octave 8 the packed note is monotone in the key: a higher key never
   * yields a lower (KC, KF) pair. (From octave 8 up the octave is clamped to 7
   * while the note keeps cycling, so monotonicity ends at key 96.)
   */
  lemma {:induction false} KeyToNoteMonotone(k1: real, k2: real)
    requires 0.0 <= k1 <= k2 < 96.0
    ensures OrderKey(KeyToNote(k1)) <= OrderKey(KeyToNote(k2))
  {
    var f1, f2 := k1.Floor, k2.Floor;
    FloorMonotone(k1, k2);
    assert f2 < 96;
    if f1 == f2 {
      assert k1 - f1 as real <= k2 - f2 as real;
      assert ((k1 - f1 as real) * 64.0).Floor <= ((k2 - f2 as real) * 64.0).Floor;
    } else {
      var n1, n2 := KeyToNote(k1), KeyToNote(k2);
      assert n1.kc == f1 / 12 * 16 + KEY_TO_NOTE[f1 % 12];
      assert n2.kc == f2 / 12 * 16 + KEY_TO_NOTE[f2 % 12];
      if f1 / 12 == f2 / 12 {
        KeyTableIncreasing(f1 % 12, f2 % 12);
      } else {
        assert f1 / 12 < f2 / 12;
      }
      assert n1.kc < n2.kc;
    }
  }
}
