// The v0.87 AY8910-to-OPM transcoder: a shadow of the sixteen AY registers
// that drives OPM channels 4..6 as the three tone channels and the last
// operator of channel 7 as the noise. The envelope is not converted.

module V0087AyToOpm {
  import opened Bytes
  import opened ChipType
  import OpmPitch
  import V0087SnToAy

  /** A call into the YM2151 driver: a register write, or an SPFM flush. */
  datatype OpmCall = Opm(addr: byte, data: byte) | Flush

  /** AY volume (0..15) to the carrier's total level. */
  const VOL_TO_TL: seq<byte> := [127, 62, 56, 52, 46, 42, 36, 32, 28, 24, 20, 16, 12, 8, 4, 0]
  /** AY volume to the noise operator's total level. */
  const N_VOL_TO_TL: seq<byte> := [127, 126, 125, 124, 123, 122, 121, 120, 116, 112, 105, 96, 82, 64, 37, 0]
  /** The OPM channel of AY tone channel 0. */
  const OPM_CH_BASE: nat := 4

  /** The 12-bit tone period of AY channel `ch`. */
  function TonePeriod(regs: seq<byte>, ch: nat): (tp: nat)
    requires |regs| == 16 && ch < 3
    ensures tp < 4096 && tp % 256 == regs[2 * ch] && tp / 256 == regs[2 * ch + 1] % 16
  {
    (regs[2 * ch + 1] as int % 16) * 256 + regs[2 * ch] as int
  }

  /** The tone's frequency: the source clock over 16 times the period, 0 for a zero period. */
  function ToneFreq(clock: u32, tp: nat): (f: real)
    ensures tp == 0 ==> f == 0.0
    ensures tp > 0 ==> f >= 0.0
  {
    if tp == 0 then 0.0 else clock as real / (16 * tp) as real
  }

  /** `freqToOPMNote(freq, clockRatio / fdiv)`: the note of a frequency scaled by the clock ratio over the divider. */
  function ToneNote(semitones: OpmPitch.Semitones, freq: real, clockRatio: real, fdiv: nat): (n: OpmPitch.Note)
    requires fdiv > 0
    ensures freq <= 0.0 && clockRatio > 0.0 ==> n == OpmPitch.Note(0, 0)
    ensures n.kf < 64
  {
    OpmPitch.FreqToNote(semitones, freq * (clockRatio / fdiv as real), 0.0)
  }

  /** `_updateFreq`: the key code and the key fraction (shifted into bits 7..2) of OPM channel `4 + ch`. */
  function FreqOut(ch: nat, n: OpmPitch.Note): (out: seq<OpmCall>)
    requires ch < 3 && n.kf < 64
  {
    [Opm(0x28 + OPM_CH_BASE + ch, n.kc), Opm(0x30 + OPM_CH_BASE + ch, n.kf * 4)]
  }

  /** The tone bit of channel `ch` in the mixer is clear: the tone is on. */
  predicate ToneOn(regs: seq<byte>, ch: nat)
    requires |regs| == 16 && ch < 3
  {
    (regs[7] / Pow2(ch)) % 2 == 0
  }

  /** The noise bit of channel `ch` in the mixer is clear: the noise is on. */
  predicate NoiseOn(regs: seq<byte>, ch: nat)
    requires |regs| == 16 && ch < 3
  {
    (regs[7] / Pow2(ch + 3)) % 2 == 0
  }

  function Pow2(n: nat): (p: nat)
    ensures p >= 1
  {
    if n == 0 then 1 else 2 * Pow2(n - 1)
  }

  /** The carrier TL of a tone channel: 0x7F with the tone off, else from its volume; envelope mode counts as volume 0. */
  function ToneLevel(regs: seq<byte>, ch: nat): (tl: byte)
    requires |regs| == 16 && ch < 3
  {
    if ToneOn(regs, ch) then
      var v := regs[8 + ch];
      var tVol := if (v / 16) % 2 == 1 then 0 else v % 16;
      Min(127, VOL_TO_TL[tVol])
    else 0x7F
  }

  /** `_updateTone`: the carrier TL of OPM channel `4 + ch`. */
  function ToneOut(regs: seq<byte>, ch: nat): (out: seq<OpmCall>)
    requires |regs| == 16 && ch < 3
  {
    [Opm(0x70 + OPM_CH_BASE + ch, ToneLevel(regs, ch))]
  }

  /** The loudest volume among the first `n` channels with noise on, 0 if none. */
  function NoiseVol(regs: seq<byte>, n: nat): (v: nat)
    requires |regs| == 16 && n <= 3
    ensures v < 16
  {
    if n == 0 then 0
    else if NoiseOn(regs, n - 1) then Max(NoiseVol(regs, n - 1), regs[8 + n - 1] % 16)
    else NoiseVol(regs, n - 1)
  }

  /** `_updateNoise`: the OPM noise register (enabled, frequency inverted) and the noise operator's TL. */
  function NoiseOut(regs: seq<byte>): (out: seq<OpmCall>)
    requires |regs| == 16
  {
    [Opm(0x0F, 0x80 + (0x1F - regs[6] % 32)), Opm(0x7F, Min(127, N_VOL_TO_TL[NoiseVol(regs, 3)]))]
  }

  /** What a write to `addr` sends, given the shadow after it (without the closing flush). */
  function WriteOut(semitones: OpmPitch.Semitones, clockRatio: real, fdiv: nat, clock: u32, regs: seq<byte>, addr: nat): (out: seq<OpmCall>)
    requires |regs| == 16 && addr < 16 && clockRatio > 0.0 && fdiv > 0
  {
    if addr <= 5 then
      var ch := addr / 2;
      FreqOut(ch, ToneNote(semitones, ToneFreq(clock, TonePeriod(regs, ch)), clockRatio, fdiv))
    else if 8 <= addr <= 10 then ToneOut(regs, addr - 8) + NoiseOut(regs)
    else if addr == 6 then NoiseOut(regs)
    else if addr == 7 then ToneOut(regs, 0) + ToneOut(regs, 1) + ToneOut(regs, 2) + NoiseOut(regs)
    else []
  }

  /** The set-up of one tone channel: connection, the two operators used, and a key-on of both. */
  function ToneSetup(opmCh: nat): (out: seq<OpmCall>)
    requires 4 <= opmCh < 7
    ensures |out| == 14
  {
    [Opm(0x20 + opmCh, 0xFC), Opm(0x40 + opmCh, 0x02), Opm(0x50 + opmCh, 0x01), Opm(0x60 + opmCh, 0x1B),
     Opm(0x70 + opmCh, 0x7F), Opm(0x80 + opmCh, 0x1F), Opm(0x90 + opmCh, 0x1F), Opm(0xA0 + opmCh, 0),
     Opm(0xB0 + opmCh, 0), Opm(0xC0 + opmCh, 0), Opm(0xD0 + opmCh, 0), Opm(0xE0 + opmCh, 0),
     Opm(0xF0 + opmCh, 0), Opm(0x08, 0x78 + opmCh)]
  }

  /** The set-up of the noise channel 7: its last operator only, keyed on. */
  const NOISE_SETUP: seq<OpmCall> :=
    [Opm(0x27, 0xFC), Opm(0x5F, 0x00), Opm(0x7F, 0x7F), Opm(0x9F, 0x1F), Opm(0xBF, 0), Opm(0xDF, 0), Opm(0xFF, 0), Opm(0x08, 0x47)]

  function ToneSetups(n: nat): (out: seq<OpmCall>)
    requires n <= 3
    ensures |out| == 14 * n
  {
    if n == 0 then [] else ToneSetups(n - 1) + ToneSetup(OPM_CH_BASE + n - 1)
  }

  class Converter {
    const semitones: OpmPitch.Semitones
    var regs: seq<byte>
    var clockRatio: real
    var sourceClock: u32
    var sourceChip: Chip
    var fdiv: nat
    /** Every call made into the YM2151 driver so far. */
    var calls: seq<OpmCall>

    predicate Valid()
      reads this
    {
      |regs| == 16 && clockRatio > 0.0 && (fdiv == 2 || fdiv == 4)
    }

    /** The statics before `ay_to_opm_init`: all zero. */
    constructor (semitones: OpmPitch.Semitones)
      ensures this.semitones == semitones && regs == Zeros(16) && calls == []
    {
      this.semitones := semitones;
      regs := Zeros(16);
      clockRatio := 0.0;
      sourceClock := 0;
      sourceChip := NoChip;
      fdiv := 0;
      calls := [];
    }

    /**
     * `ay_to_opm_init`: records the source, sets the clock ratio against the
     * OPM clock and the divider (2 for an AY8910, 4 otherwise), clears the
     * shadow, sets up and keys on the three tone channels and the noise
     * operator, all muted, and flushes.
     */
    method Init(chip: Chip, clock: u32, opmClock: real)
      requires opmClock > 0.0
      modifies this`regs, this`clockRatio, this`sourceClock, this`sourceChip, this`fdiv, this`calls
      ensures Valid()
      ensures sourceChip == chip && sourceClock == clock && clockRatio == 3579545.0 / opmClock
      ensures fdiv == (if chip == AY8910 then 2 else 4)
      ensures regs == Zeros(16)
      ensures calls == old(calls) + ToneSetups(3) + NOISE_SETUP + [Flush]
    {
      sourceChip := chip;
      sourceClock := clock;
      clockRatio := 3579545.0 / opmClock;
      fdiv := if chip == AY8910 then 2 else 4;
      regs := Zeros(16);
      SetUpChannels();
      calls := calls + [Flush];
    }

    /** The channel set-up of `ay_to_opm_init`: the three tone channels in turn, then the noise operator. */
    method SetUpChannels()
      modifies this`calls
      ensures calls == old(calls) + ToneSetups(3) + NOISE_SETUP
    {
      hide ToneSetup;
      var start := calls;
      var opmCh := OPM_CH_BASE;
      while opmCh < OPM_CH_BASE + 3
        invariant OPM_CH_BASE <= opmCh <= OPM_CH_BASE + 3
        invariant calls == start + ToneSetups(opmCh - OPM_CH_BASE)
      {
        calls := calls + ToneSetup(opmCh);
        opmCh := opmCh + 1;
      }
      calls := calls + NOISE_SETUP;
    }

    method UpdateFreq(ch: nat, freq: real)
      requires Valid() && ch < 3
      modifies this`calls
      ensures calls == old(calls) + FreqOut(ch, ToneNote(semitones, freq, clockRatio, fdiv))
    {
      var n := ToneNote(semitones, freq, clockRatio, fdiv);
      var opmCh := ch + OPM_CH_BASE;
      calls := calls + [Opm(0x28 + opmCh, n.kc)];
      calls := calls + [Opm(0x30 + opmCh, n.kf * 4)];
    }

    method UpdateNoise()
      requires Valid()
      modifies this`calls
      ensures calls == old(calls) + NoiseOut(regs)
    {
      var nVol := 0;
      var i := 0;
      while i < 3
        invariant 0 <= i <= 3 && nVol == NoiseVol(regs, i)
      {
        if (regs[7] / Pow2(i + 3)) % 2 == 0 {
          nVol := Max(nVol, regs[8 + i] % 16);
        }
        i := i + 1;
      }
      var nfreq := regs[6] % 32;
      calls := calls + [Opm(0x0F, 0x80 + (0x1F - nfreq))];
      calls := calls + [Opm(0x7F, Min(127, N_VOL_TO_TL[nVol]))];
    }

    method UpdateTone(ch: nat)
      requires Valid() && ch < 3
      modifies this`calls
      ensures calls == old(calls) + ToneOut(regs, ch)
    {
      var opmCh := ch + OPM_CH_BASE;
      if (regs[7] / Pow2(ch)) % 2 == 0 {
        var v := regs[8 + ch];
        var tVol := if (v / 16) % 2 == 1 then 0 else v % 16;
        calls := calls + [Opm(0x70 + opmCh, Min(127, VOL_TO_TL[tVol]))];
      } else {
        calls := calls + [Opm(0x70 + opmCh, 0x7F)];
      }
    }

    /**
     * `ay_to_opm_write_reg`: a register above 15 is ignored outright;
     * otherwise the shadow takes the write, the affected pitch, levels or
     * noise are sent, and the SPFM buffer is flushed.
     */
    method WriteReg(addr: byte, data: byte)
      requires Valid()
      modifies this`regs, this`calls
      ensures Valid()
      ensures addr > 15 ==> regs == old(regs) && calls == old(calls)
      ensures addr <= 15 ==>
        regs == old(regs)[addr := data] &&
        calls == old(calls) + WriteOut(semitones, clockRatio, fdiv, sourceClock, regs, addr) + [Flush]
    {
      hide ToneOut, NoiseOut, FreqOut, ToneNote;
      if addr > 15 {
        return;
      }
      regs := regs[addr := data];
      if addr <= 5 {
        var ch := addr / 2;
        var tp: nat := (regs[ch * 2 + 1] as int % 16) * 256 + regs[ch * 2] as int;
        if tp == 0 {
          UpdateFreq(ch, 0.0);
        } else {
          var freq := sourceClock as real / (16 * tp) as real;
          UpdateFreq(ch, freq);
        }
      } else if 8 <= addr <= 10 {
        UpdateTone(addr - 8);
        UpdateNoise();
      } else if addr == 6 {
        UpdateNoise();
      } else if addr == 7 {
        UpdateTone(0);
        UpdateTone(1);
        UpdateTone(2);
        UpdateNoise();
      }
      calls := calls + [Flush];
    }
  }

  // ----------------------------------------------------------- properties

  /** A zero tone period sends key code and key fraction 0. */
  lemma ZeroPeriodSilentPitch(semitones: OpmPitch.Semitones, clockRatio: real, fdiv: nat, clock: u32, regs: seq<byte>, ch: nat)
    requires |regs| == 16 && ch < 3 && clockRatio > 0.0 && fdiv > 0 && TonePeriod(regs, ch) == 0
    ensures WriteOut(semitones, clockRatio, fdiv, clock, regs, 2 * ch) == [Opm(0x2C + ch, 0), Opm(0x34 + ch, 0)]
    ensures WriteOut(semitones, clockRatio, fdiv, clock, regs, 2 * ch + 1) == [Opm(0x2C + ch, 0), Opm(0x34 + ch, 0)]
  {
  }

  /** A channel in envelope mode, or with its tone off, is silent (TL 127); otherwise a louder volume never gives a higher TL. */
  lemma ToneLevelSilences(regs: seq<byte>, ch: nat)
    requires |regs| == 16 && ch < 3
    ensures (regs[8 + ch] / 16) % 2 == 1 || !ToneOn(regs, ch) || regs[8 + ch] % 16 == 0 ==> ToneLevel(regs, ch) == 127
    ensures ToneOn(regs, ch) && (regs[8 + ch] / 16) % 2 == 0 ==> ToneLevel(regs, ch) == VOL_TO_TL[regs[8 + ch] % 16]
  {
  }

  /** Both volume tables stay within the 7-bit TL, so the `fmin(127, ...)` of the levels never bites. */
  lemma VolumeTableBelowMute()
    ensures forall i :: 0 <= i < 16 ==> VOL_TO_TL[i] <= 127 && N_VOL_TO_TL[i] <= 127
  {
  }

  lemma VolumeTablesDecrease(a: nat, b: nat)
    requires a < b < 16
    ensures VOL_TO_TL[a] > VOL_TO_TL[b] && N_VOL_TO_TL[a] > N_VOL_TO_TL[b]
  {
  }

  /** The noise volume is the loudest volume of the channels with noise on: no such channel is louder, and one reaches it unless it is 0. */
  lemma {:induction false} NoiseVolIsMax(regs: seq<byte>, n: nat)
    requires |regs| == 16 && n <= 3
    ensures forall i :: 0 <= i < n && NoiseOn(regs, i) ==> regs[8 + i] % 16 <= NoiseVol(regs, n)
    ensures NoiseVol(regs, n) == 0 || exists i :: 0 <= i < n && NoiseOn(regs, i) && regs[8 + i] % 16 == NoiseVol(regs, n)
  {
    if n > 0 {
      NoiseVolIsMax(regs, n - 1);
    }
  }

  /** The noise register keeps the enable bit set and carries the AY noise period's five bits inverted, so the period can be read back. */
  lemma NoiseFrequencyInverted(regs: seq<byte>)
    requires |regs| == 16
    ensures var d := NoiseOut(regs)[0].data;
      d >= 0x80 && 0x1F - (d - 0x80) == regs[6] % 32
  {
  }

  /** Writes to the envelope registers 11..13 (and to the I/O ports) send nothing but the flush. */
  lemma EnvelopeIgnored(semitones: OpmPitch.Semitones, clockRatio: real, fdiv: nat, clock: u32, regs: seq<byte>, addr: nat)
    requires |regs| == 16 && 11 <= addr < 16 && clockRatio > 0.0 && fdiv > 0
    ensures WriteOut(semitones, clockRatio, fdiv, clock, regs, addr) == []
  {
  }

  /** The AY shadow after a sequence of writes. */
  function ApplyAy(regs: seq<byte>, calls: seq<V0087SnToAy.AyCall>): (r: seq<byte>)
    requires |regs| == 16
    ensures |r| == 16
    decreases |calls|
  {
    if calls == [] then regs
    else
      var c := calls[0];
      ApplyAy(if c.AyWrite? && c.addr <= 15 then regs[c.addr := c.data] else regs, calls[1..])
  }

  /**
   * In the SN76489-to-AY-to-OPM chain, the two AY writes that the SN
   * converter sends for a tone (period low byte, then high bits) leave
   * exactly the SN's 10-bit frequency as this shadow's tone period.
   */
  lemma SnToneReachesAyPeriod(regs: seq<byte>, freq: seq<nat>, ch: nat)
    requires |regs| == 16 && |freq| == 4 && ch < 3 && freq[ch] < 1024
    ensures TonePeriod(ApplyAy(regs, V0087SnToAy.FreqOut(freq, ch)), ch) == freq[ch]
  {
    var f := freq[ch];
    var out := V0087SnToAy.FreqOut(freq, ch);
    assert out == [V0087SnToAy.AyWrite(2 * ch, f % 256), V0087SnToAy.AyWrite(2 * ch + 1, f / 256)];
    var r1 := regs[2 * ch := f % 256];
    var r := r1[2 * ch + 1 := f / 256];
    assert out[1..] == [V0087SnToAy.AyWrite(2 * ch + 1, f / 256)] && out[1..][1..] == [];
    assert ApplyAy(regs, out) == ApplyAy(r1, out[1..]);
    assert ApplyAy(r1, out[1..]) == ApplyAy(r, []) == r;
    assert r[2 * ch] == f % 256 && r[2 * ch + 1] == f / 256 < 16;
    assert (f / 256) * 256 + f % 256 == f;
  }
}
