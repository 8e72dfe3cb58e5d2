// The v0.888 YM2151 (OPM) driver: the register shadow, the clock
// conversion that transposes key codes and rescales the noise and LFO
// frequencies when the song's OPM clock differs from the hardware's, and the
// mute and init scripts.

module V0888Ym2151 {
  import opened Bytes
  import Spfm

  /** A call into the SPFM layer: one register write, a batch, or a flush. */
  datatype Call = Write(slot: byte, port: byte, addr: byte, data: byte) | WriteRegs(slot: byte, regs: seq<Spfm.Reg>, wait: nat) | Flush

  /** OPM note code (0..15, codes 3, 7, 11 and 15 unused) to semitone index. */
  const KEY_CODE_TO_INDEX: seq<nat> := [0, 1, 2, 3, 3, 4, 5, 6, 6, 7, 8, 9, 9, 10, 11, 12]
  /** Semitone index (0..11) to OPM note code. */
  const KEY_INDEX_TO_CODE: seq<byte> := [0, 1, 2, 4, 5, 6, 8, 9, 10, 12, 13, 14]
  /** One octave in key units: 12 semitones of 256 steps. */
  const OCTAVE: int := 12 * 256

  /** An octave and a key within it, in 1/256 semitone. */
  datatype Key = Key(octave: int, key: int)

  /** The octave field of a key code register. */
  function Octave(kc: byte): (o: nat)
    ensures o < 8
  {
    (kc / 16) % 8
  }

  /** `orgKey`: the semitone index of the note code in the upper byte and the key fraction (low two bits cleared) in the lower. */
  function OrgKey(kc: byte, kf: byte): (k: int)
    ensures 0 <= k < 13 * 256 && k % 4 == 0
  {
    KEY_CODE_TO_INDEX[kc % 16] * 256 + (kf / 4) * 4
  }

  /** The note a key code/key fraction pair sounds, in 1/256 semitone from the bottom of octave 0. */
  function AbsoluteKey(kc: byte, kf: byte): int
  {
    Octave(kc) * OCTAVE + OrgKey(kc, kf)
  }

  /** The key code and key fraction sent for an octave and an in-range key. */
  function KeyPair(k: Key): (p: (byte, byte))
    requires 0 <= k.octave < 8 && 0 <= k.key < OCTAVE
  {
    (k.octave * 16 + KEY_INDEX_TO_CODE[k.key / 256], ((k.key % 256) / 4) * 4)
  }

  // --------------------------------------------------- as written: one step

  /** The single borrow or carry the driver applies, with its clamps at octaves 0 and 7. */
  function StepAsWritten(octave: int, newKey: int): Key
  {
    if newKey < 0 then
      if octave > 0 then Key(octave - 1, newKey + OCTAVE) else Key(octave, 0)
    else if newKey >= OCTAVE then
      if octave < 7 then Key(octave + 1, newKey - OCTAVE) else Key(octave, OCTAVE - 1)
    else Key(octave, newKey)
  }

  /**
   * The transposed pair as written, or None when `newKey >> 8` indexes
   * outside `keyIndexToCode`, a read past the table.
   */
  function PitchAsWritten(kc: byte, kf: byte, keyDiff: int): Option<(byte, byte)>
  {
    var k := StepAsWritten(Octave(kc), OrgKey(kc, kf) + keyDiff);
    if 0 <= k.key < OCTAVE && 0 <= k.octave < 8 then Some(KeyPair(k)) else None
  }

  /** Within one octave of shift either way (less the widest key) the single step always lands inside the table. */
  lemma AsWrittenInRange(kc: byte, kf: byte, keyDiff: int)
    requires -OCTAVE <= keyDiff < OCTAVE - 252
    ensures PitchAsWritten(kc, kf, keyDiff).Some?
  {
  }

  /**
   * A shift of more than an octave downwards from the bottom note of
   * octave 1 borrows once, leaves the key at -1 and indexes the table at -1.
   */
  lemma TableIndexOverrun()
    ensures PitchAsWritten(0x10, 0, -OCTAVE - 1) == None
  {
    assert StepAsWritten(1, -OCTAVE - 1) == Key(0, -1);
  }

  // ------------------------------------------------- corrected: normalised

  /** Borrow or carry whole octaves until the key is inside one octave, clamping at octaves 0 and 7. */
  function Normalise(octave: int, key: int): (k: Key)
    requires 0 <= octave < 8
    ensures 0 <= k.octave < 8 && 0 <= k.key < OCTAVE
    decreases (if key < 0 then octave + 1 else 0) + (if key >= OCTAVE then 8 - octave else 0)
  {
    if key < 0 then
      if octave > 0 then Normalise(octave - 1, key + OCTAVE) else Key(0, 0)
    else if key >= OCTAVE then
      if octave < 7 then Normalise(octave + 1, key - OCTAVE) else Key(7, OCTAVE - 1)
    else Key(octave, key)
  }

  /** Normalising keeps the note when it lies within the chip's eight octaves, and clamps to the bottom or top note otherwise. */
  lemma {:induction false} NormaliseKeepsNote(octave: int, key: int)
    requires 0 <= octave < 8
    ensures var k := Normalise(octave, key);
      var total := octave * OCTAVE + key;
      (0 <= total < 8 * OCTAVE ==> k.octave * OCTAVE + k.key == total) &&
      (total < 0 ==> k == Key(0, 0)) &&
      (total >= 8 * OCTAVE ==> k == Key(7, OCTAVE - 1))
    decreases (if key < 0 then octave + 1 else 0) + (if key >= OCTAVE then 8 - octave else 0)
  {
    if key < 0 && octave > 0 {
      assert (octave - 1) * OCTAVE + (key + OCTAVE) == octave * OCTAVE + key;
      assert Normalise(octave, key) == Normalise(octave - 1, key + OCTAVE);
      NormaliseKeepsNote(octave - 1, key + OCTAVE);
    } else if key >= OCTAVE && octave < 7 {
      assert (octave + 1) * OCTAVE + (key - OCTAVE) == octave * OCTAVE + key;
      assert Normalise(octave, key) == Normalise(octave + 1, key - OCTAVE);
      NormaliseKeepsNote(octave + 1, key - OCTAVE);
    } else if key < 0 {
      assert octave * OCTAVE + key < 0;
    } else if key >= OCTAVE {
      assert octave * OCTAVE + key >= 8 * OCTAVE;
    } else {
      assert 0 <= octave * OCTAVE + key < 8 * OCTAVE;
    }
  }

  /** The transposed key code and key fraction, normalised. */
  function Pitch(kc: byte, kf: byte, keyDiff: int): (p: (byte, byte))
    ensures p.0 % 4 != 3 && p.1 % 4 == 0
  {
    KeyPair(Normalise(Octave(kc), OrgKey(kc, kf) + keyDiff))
  }

  /** The sent note code maps back to the semitone index it came from. */
  lemma CodeIndexRoundTrip(i: nat)
    requires i < 12
    ensures KEY_CODE_TO_INDEX[KEY_INDEX_TO_CODE[i]] == i
  {
  }

  /** The pair sent for a normalised key sounds that key, down to the key fraction's resolution. */
  lemma KeyPairDecodes(k: Key)
    requires 0 <= k.octave < 8 && 0 <= k.key < OCTAVE
    ensures var p := KeyPair(k); AbsoluteKey(p.0, p.1) == k.octave * OCTAVE + k.key - k.key % 4
  {
    var p := KeyPair(k);
    CodeIndexRoundTrip(k.key / 256);
    assert Octave(p.0) == k.octave;
    assert p.0 % 16 == KEY_INDEX_TO_CODE[k.key / 256];
    assert OrgKey(p.0, p.1) == (k.key / 256) * 256 + ((k.key % 256) / 4) * 4;
  }

  /**
   * Transposition moves the note by exactly `keyDiff` (down to the key
   * fraction's 4-step resolution) whenever the result lies within the chip's
   * range, and otherwise gives its bottom or top note.
   */
  lemma PitchShifts(kc: byte, kf: byte, keyDiff: int)
    ensures var p := Pitch(kc, kf, keyDiff);
      var total := AbsoluteKey(kc, kf) + keyDiff;
      (0 <= total < 8 * OCTAVE ==> AbsoluteKey(p.0, p.1) == total - total % 4) &&
      (total < 0 ==> p == (0, 0)) &&
      (total >= 8 * OCTAVE ==> p == (7 * 16 + 14, 0xFC))
  {
    hide Normalise;
    var o := Octave(kc);
    var key := OrgKey(kc, kf) + keyDiff;
    var k := Normalise(o, key);
    NormaliseKeepsNote(o, key);
    KeyPairDecodes(k);
    var total := o * OCTAVE + key;
    assert AbsoluteKey(kc, kf) + keyDiff == total;
    if 0 <= total < 8 * OCTAVE {
      OctaveKeepsQuarter(k.octave, k.key);
    }
  }

  lemma OctaveKeepsQuarter(o: int, key: int)
    ensures (o * OCTAVE + key) % 4 == key % 4
  {
    assert o * OCTAVE == 4 * (o * 768);
  }

  /** Where the table is not overrun the driver's single step and the normalisation agree. */
  lemma PitchAgreesAsWritten(kc: byte, kf: byte, keyDiff: int)
    requires PitchAsWritten(kc, kf, keyDiff).Some?
    ensures PitchAsWritten(kc, kf, keyDiff) == Some(Pitch(kc, kf, keyDiff))
  {
    var o := Octave(kc);
    var key := OrgKey(kc, kf) + keyDiff;
    var k := StepAsWritten(o, key);
    if key < 0 && o > 0 {
      assert Normalise(o, key) == Normalise(o - 1, key + OCTAVE) == k;
    } else if key >= OCTAVE && o < 7 {
      assert Normalise(o, key) == Normalise(o + 1, key - OCTAVE) == k;
    }
  }

  // ----------------------------------------------- noise, LFO and rounding

  /** C's `round`: to the nearest integer, halves away from zero. */
  function Round(x: real): (r: int)
    ensures x - 0.5 <= r as real <= x + 0.5
    ensures x >= 0.0 ==> r >= 0
  {
    if x >= 0.0 then (x + 0.5).Floor else -((-x + 0.5).Floor)
  }

  /** The noise register rescaled by the clock ratio: the top three bits kept, the frequency capped at 0x1F. */
  function NoiseData(data: byte, ratio: real): (r: byte)
    requires ratio >= 0.0
    ensures r / 32 == data / 32
    ensures r % 32 == Min(0x1F, Round((data % 32) as real * ratio))
  {
    (data / 32) * 32 + Min(0x1F, Round((data % 32) as real * ratio))
  }

  /** The LFO frequency moved by the LFO difference and clamped to 0..255. */
  function LfoData(data: int, lfoDiff: int): (r: byte)
    ensures 0 <= data + lfoDiff <= 255 ==> r == data + lfoDiff
    ensures data + lfoDiff < 0 ==> r == 0
    ensures data + lfoDiff > 255 ==> r == 255
  {
    Max(0, Min(255, lfoDiff + data))
  }

  // ---------------------------------------------------------------- output

  function FlushIf(flushMode: int): seq<Call>
  {
    if flushMode == 1 then [Flush] else []
  }

  /** A pitch register of channel `ch`: 0x28..0x2F (key code) or 0x30..0x37 (key fraction). */
  function PitchChannel(addr: byte): (ch: nat)
    requires 0x28 <= addr <= 0x37
    ensures ch < 8 && (addr == 0x28 + ch || addr == 0x30 + ch)
  {
    if addr < 0x30 then addr - 0x28 else addr - 0x30
  }

  /**
   * What `ym2151_write_reg` sends for a write of `data` to `addr`, given the
   * shadow after the write: under clock conversion a pitch register sends
   * its channel's transposed pair, the noise and LFO frequencies are
   * rescaled, and everything else passes through.
   */
  function WriteOut(regs: seq<byte>, ratio: real, keyDiff: int, lfoDiff: int, conversion: bool, flushMode: int, slot: byte, addr: byte, data: byte): (out: seq<Call>)
    requires |regs| == 256 && ratio >= 0.0
  {
    if ratio != 1.0 && !conversion && 0x28 <= addr <= 0x37 then
      var ch := PitchChannel(addr);
      var p := Pitch(regs[0x28 + ch], regs[0x30 + ch], keyDiff);
      [Write(slot, 0, 0x28 + ch, p.0), Write(slot, 0, 0x30 + ch, p.1)] + FlushIf(flushMode)
    else if ratio != 1.0 && !conversion && addr == 0x0F then
      [Write(slot, 0, addr, NoiseData(data, ratio))] + FlushIf(flushMode)
    else if ratio != 1.0 && !conversion && addr == 0x18 then
      [Write(slot, 0, addr, LfoData(data, lfoDiff))] + FlushIf(flushMode)
    else
      [Write(slot, 0, addr, data)] + FlushIf(flushMode)
  }

  /** Without a clock ratio, or while OPN conversion drives the chip, every write passes through unchanged. */
  lemma PassThrough(regs: seq<byte>, ratio: real, keyDiff: int, lfoDiff: int, conversion: bool, flushMode: int, slot: byte, addr: byte, data: byte)
    requires |regs| == 256 && ratio >= 0.0 && (ratio == 1.0 || conversion)
    ensures WriteOut(regs, ratio, keyDiff, lfoDiff, conversion, flushMode, slot, addr, data) == [Write(slot, 0, addr, data)] + FlushIf(flushMode)
  {
  }

  /**
   * Under clock conversion a write to either pitch register of a channel
   * sends both: the key code and key fraction of the shadowed note moved by
   * the key difference, each on its own register.
   */
  lemma ConvertedPitchWrite(regs: seq<byte>, ratio: real, keyDiff: int, lfoDiff: int, flushMode: int, slot: byte, ch: nat)
    requires |regs| == 256 && ratio >= 0.0 && ratio != 1.0 && ch < 8
    ensures var p := Pitch(regs[0x28 + ch], regs[0x30 + ch], keyDiff);
      var out := [Write(slot, 0, 0x28 + ch, p.0), Write(slot, 0, 0x30 + ch, p.1)] + FlushIf(flushMode);
      WriteOut(regs, ratio, keyDiff, lfoDiff, false, flushMode, slot, 0x28 + ch, regs[0x28 + ch]) == out &&
      WriteOut(regs, ratio, keyDiff, lfoDiff, false, flushMode, slot, 0x30 + ch, regs[0x30 + ch]) == out
  {
    assert PitchChannel(0x28 + ch) == ch;
    assert PitchChannel(0x30 + ch) == ch;
  }

  // ---------------------------------------------------------- mute, reset

  /** The SL/RR maximum for the 32 operators. */
  function ReleaseAll(): (r: seq<Spfm.Reg>)
    ensures |r| == 32
  {
    seq(32, i requires 0 <= i < 32 => Spfm.Reg(0, 0xE0 + i, 0xFF))
  }

  /** A key-off for each of the 8 channels. */
  function KeyOffAll(): (r: seq<Spfm.Reg>)
    ensures |r| == 8
  {
    seq(8, i requires 0 <= i < 8 => Spfm.Reg(0, 8, i))
  }

  /** Zero writes to the registers from `k` on. */
  function ZeroFrom(k: nat): (r: seq<Spfm.Reg>)
    requires k <= 256
    ensures |r| == 256 - k
  {
    seq(256 - k, i requires 0 <= i < 256 - k => Spfm.Reg(0, k + i, 0))
  }

  /** The batch `ym2151_mute` sends. */
  function MuteRegs(): (r: seq<Spfm.Reg>)
    ensures |r| == 296
  {
    ReleaseAll() + KeyOffAll() + ZeroFrom(0)
  }

  /** The chip's register file after a batch of writes. */
  function AfterBatch(r: seq<byte>, batch: seq<Spfm.Reg>): (t: seq<byte>)
    requires |r| == 256
    ensures |t| == 256
    decreases |batch|
  {
    if batch == [] then r else AfterBatch(r[batch[0].addr := batch[0].data], batch[1..])
  }

  lemma {:induction false} AfterBatchAppend(r: seq<byte>, a: seq<Spfm.Reg>, b: seq<Spfm.Reg>)
    requires |r| == 256
    ensures AfterBatch(r, a + b) == AfterBatch(AfterBatch(r, a), b)
    decreases |a|
  {
    if a == [] {
      assert a + b == b;
    } else {
      assert (a + b)[0] == a[0];
      assert (a + b)[1..] == a[1..] + b;
      AfterBatchAppend(r[a[0].addr := a[0].data], a[1..], b);
    }
  }

  lemma {:induction false} ZeroFromClears(r: seq<byte>, k: nat)
    requires |r| == 256 && k <= 256
    requires forall i :: 0 <= i < k ==> r[i] == 0
    ensures AfterBatch(r, ZeroFrom(k)) == Zeros(256)
    decreases 256 - k
  {
    if k == 256 {
      assert r == Zeros(256);
    } else {
      assert ZeroFrom(k)[0] == Spfm.Reg(0, k, 0);
      assert ZeroFrom(k)[1..] == ZeroFrom(k + 1);
      ZeroFromClears(r[k := 0], k + 1);
    }
  }

  /** Whatever the chip held, the mute batch leaves every register at 0. */
  lemma MuteClearsChip(r: seq<byte>)
    requires |r| == 256
    ensures AfterBatch(r, MuteRegs()) == Zeros(256)
  {
    AfterBatchAppend(r, ReleaseAll() + KeyOffAll(), ZeroFrom(0));
    ZeroFromClears(AfterBatch(r, ReleaseAll() + KeyOffAll()), 0);
  }

  /** The writes of `ym2151_init`'s reset: all registers zeroed, the test register, key-offs, and every TL at maximum attenuation. */
  function ResetCalls(slot: byte): (c: seq<Call>)
    ensures |c| == 297
  {
    seq(256, i requires 0 <= i < 256 => Write(slot, 0, i, 0)) + [Write(slot, 0, 1, 2)] +
    seq(8, i requires 0 <= i < 8 => Write(slot, 0, 8, i)) +
    seq(32, i requires 0 <= i < 32 => Write(slot, 0, 0x60 + i, 0x7F))
  }

  class Ym2151 {
    /** `log2`, a parameter of the model. */
    const log2: real -> real
    var regs: seq<byte>
    var ratio: real
    var keyDiff: int
    var lfoDiff: int
    /** Every call made into the SPFM layer so far. */
    var calls: seq<Call>

    predicate Valid()
      reads this
    {
      |regs| == 256 && ratio > 0.0
    }

    /** The statics before any call: a zero shadow, ratio 1 and no differences. */
    constructor (log2: real -> real)
      ensures Valid() && this.log2 == log2
      ensures regs == Zeros(256) && ratio == 1.0 && keyDiff == 0 && lfoDiff == 0 && calls == []
    {
      this.log2 := log2;
      regs := Zeros(256);
      ratio := 1.0;
      keyDiff := 0;
      lfoDiff := 0;
      calls := [];
    }

    /**
     * `ym2151_write_reg`: the shadow always takes the write; what is sent
     * is `WriteOut`, followed by a flush in register-level flush mode.
     */
    method WriteReg(slot: byte, addr: byte, data: byte, conversion: bool, flushMode: int)
      requires Valid()
      modifies this`regs, this`calls
      ensures Valid()
      ensures regs == old(regs)[addr := data]
      ensures calls == old(calls) + WriteOut(regs, ratio, keyDiff, lfoDiff, conversion, flushMode, slot, addr, data)
    {
      hide Pitch, Round;
      regs := regs[addr := data];
      var sent := data;
      if ratio != 1.0 && !conversion {
        if (0x28 <= addr && addr <= 0x2F) || (0x30 <= addr && addr <= 0x37) {
          var ch := if addr < 0x30 then addr - 0x28 else addr - 0x30;
          assert ch == PitchChannel(addr);
          var p := Pitch(regs[0x28 + ch], regs[0x30 + ch], keyDiff);
          ghost var pitchOut := [Write(slot, 0, 0x28 + ch, p.0), Write(slot, 0, 0x30 + ch, p.1)];
          assert WriteOut(regs, ratio, keyDiff, lfoDiff, conversion, flushMode, slot, addr, data) == pitchOut + FlushIf(flushMode);
          calls := calls + [Write(slot, 0, 0x28 + ch, p.0)];
          calls := calls + [Write(slot, 0, 0x30 + ch, p.1)];
          if flushMode == 1 {
            calls := calls + [Flush];
          }
          return;
        } else if addr == 0x0F {
          var nfrq := Min(0x1F, Round((data % 32) as real * ratio));
          sent := (data / 32) * 32 + nfrq;
          assert sent == NoiseData(data, ratio);
        } else if addr == 0x18 {
          sent := Max(0, Min(255, lfoDiff + data));
          assert sent == LfoData(data, lfoDiff);
        }
      }
      assert WriteOut(regs, ratio, keyDiff, lfoDiff, conversion, flushMode, slot, addr, data) == [Write(slot, 0, addr, sent)] + FlushIf(flushMode);
      calls := calls + [Write(slot, 0, addr, sent)];
      if flushMode == 1 {
        calls := calls + [Flush];
      }
    }

    /** `ym2151_mute`: builds the 296-entry batch in three loops and sends it with no wait. */
    method Mute(slot: byte)
      modifies this`calls
      ensures calls == old(calls) + [WriteRegs(slot, MuteRegs(), 0)]
    {
      var batch: seq<Spfm.Reg> := [];
      var i := 0xE0;
      while i <= 0xFF
        invariant 0xE0 <= i <= 0x100
        invariant batch == ReleaseAll()[..i - 0xE0]
      {
        batch := batch + [Spfm.Reg(0, i, 0xFF)];
        i := i + 1;
      }
      assert batch == ReleaseAll();
      i := 0;
      while i < 8
        invariant 0 <= i <= 8
        invariant batch == ReleaseAll() + KeyOffAll()[..i]
      {
        batch := batch + [Spfm.Reg(0, 8, i)];
        i := i + 1;
      }
      assert batch == ReleaseAll() + KeyOffAll();
      i := 0;
      while i <= 0xFF
        invariant 0 <= i <= 0x100
        invariant batch == ReleaseAll() + KeyOffAll() + ZeroFrom(0)[..i]
      {
        batch := batch + [Spfm.Reg(0, i, 0)];
        i := i + 1;
      }
      assert batch == MuteRegs();
      calls := calls + [WriteRegs(slot, batch, 0)];
    }

    /**
     * `ym2151_init`: resets the conversion state, derives the ratio and the
     * key and LFO differences from a clock mismatch (unless OPN conversion
     * drives the chip), zeroes the shadow and the chip, sends the reset
     * script, the rescaled LFO frequency under conversion, and a flush.
     */
    method Init(slot: byte, conversion: bool, vgmClock: u32, hardwareClock: u32)
      requires Valid() && hardwareClock > 0
      modifies this`regs, this`ratio, this`keyDiff, this`lfoDiff, this`calls
      ensures Valid()
      ensures !conversion && vgmClock > 0 && vgmClock != hardwareClock ==>
        ratio == hardwareClock as real / vgmClock as real &&
        keyDiff == Round(12.0 * log2(1.0 / ratio) * 256.0) && lfoDiff == Round(16.0 * log2(1.0 / ratio))
      ensures !(!conversion && vgmClock > 0 && vgmClock != hardwareClock) ==> ratio == 1.0 && keyDiff == 0 && lfoDiff == 0
      ensures regs == Zeros(256)
      ensures calls == old(calls) + ResetCalls(slot) +
        (if ratio != 1.0 && !conversion then [Write(slot, 0, 0x18, LfoData(0, lfoDiff))] else []) + [Flush]
    {
      ratio := 1.0;
      keyDiff := 0;
      lfoDiff := 0;
      if !conversion && vgmClock > 0 && vgmClock != hardwareClock {
        ratio := hardwareClock as real / vgmClock as real;
        keyDiff := Round(12.0 * log2(1.0 / ratio) * 256.0);
        lfoDiff := Round(16.0 * log2(1.0 / ratio));
      }
      Reset(slot);
      if ratio != 1.0 && !conversion {
        calls := calls + [Write(slot, 0, 0x18, Max(0, Min(255, lfoDiff)))];
      }
      calls := calls + [Flush];
    }

    /** The reset part of `ym2151_init`: zero the shadow and the chip, set the test register, key off, and silence every operator. */
    method Reset(slot: byte)
      requires |regs| == 256
      modifies this`regs, this`calls
      ensures regs == Zeros(256)
      ensures calls == old(calls) + ResetCalls(slot)
    {
      var start := calls;
      var i := 0;
      while i <= 0xFF
        invariant 0 <= i <= 0x100 && |regs| == 256
        invariant forall j :: 0 <= j < i ==> regs[j] == 0
        invariant calls == start + ResetCalls(slot)[..i]
      {
        regs := regs[i := 0];
        calls := calls + [Write(slot, 0, i, 0)];
        i := i + 1;
      }
      assert regs == Zeros(256);
      calls := calls + [Write(slot, 0, 1, 2)];
      i := 0;
      while i < 8
        invariant 0 <= i <= 8 && regs == Zeros(256)
        invariant calls == start + ResetCalls(slot)[..257 + i]
      {
        calls := calls + [Write(slot, 0, 8, i)];
        i := i + 1;
      }
      i := 0x60;
      while i <= 0x7F
        invariant 0x60 <= i <= 0x80 && regs == Zeros(256)
        invariant calls == start + ResetCalls(slot)[..265 + i - 0x60]
      {
        calls := calls + [Write(slot, 0, i, 0x7F)];
        i := i + 1;
      }
      assert ResetCalls(slot)[..297] == ResetCalls(slot);
    }
  }
}
