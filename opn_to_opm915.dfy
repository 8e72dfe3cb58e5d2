// The v0.915 OPN-to-OPM transcoder: a shadow of the two register ports of a
// YM2612, YM2203 or YM2608, and the YM2151 writes each OPN write turns into.
// The writer callback is a sequence the transcoder appends to; the one
// transcendental step of the pitch conversion is `OpmPitch.Semitones`.

module V0915OpnToOpm {
  import opened Bytes
  import opened ChipType
  import OpmPitch

  /** One call of the OPM writer callback: a YM2151 register and its value. */
  datatype OpmWrite = OpmWrite(addr: byte, data: byte)

  /**
   * What `opn_to_opm_init` fixes for a song: the source chip, its clock, the
   * OPM clock ratio and the divider of the F-number formula (1 for the
   * YM2203, 2 otherwise).
   */
  datatype Setup = Setup(chip: Chip, clock: u32, ratio: real, div: real)

  /** The LFO rate table for register 0x22 (OPNFMOnSFG). */
  const LFO_LUT: seq<byte> := [0, 0, 0, 0, 0, 0, 0, 0, 0xC1, 0xC7, 0xC9, 0xCB, 0xCD, 0xD4, 0xF9, 0xFF]

  /** The three LFO set-up writes `opn_to_opm_init` sends: AMD, PMD and the triangle waveform. */
  const INIT_WRITES: seq<OpmWrite> := [OpmWrite(0x19, 0x10), OpmWrite(0x19, 0xA8), OpmWrite(0x1B, 0x02)]

  /** The OPM channel of channel `nch` (0..3) of a port: port 1's channels follow port 0's three. */
  function Channel(port: nat, nch: nat): nat
  {
    3 * port + nch
  }

  function Pow2(n: nat): (r: nat)
    ensures r >= 1
  {
    if n == 0 then 1 else 2 * Pow2(n - 1)
  }

  // ---------------------------------------------------------- the pieces

  /**
   * The OPM channel a key-on write (0x28) addresses: OPN channels 0..2 keep
   * their number, 4..6 (port 1) become 3..5, and 3 and 7, which no OPN has,
   * are dropped.
   */
  function KeyOnChannel(opnCh: nat): (r: Option<nat>)
    requires opnCh < 8
    ensures r.None? <==> opnCh == 3 || opnCh == 7
  {
    if opnCh == 3 || opnCh > 6 then None
    else if opnCh < 3 then Some(opnCh) else Some(opnCh - 1)
  }

  /** The OPM register an operator register (0x30..0x8F) of a port lands on. */
  function OperatorReg(port: nat, addr: byte): (r: nat)
    requires port <= 1 && 0x30 <= addr <= 0x8F
    ensures 0x40 <= r < 0x100
  {
    var nch := addr % 4;
    var slot := (addr / 4) % 4;
    var base := 0x40 + ((addr / 16) * 16 - 0x30) * 2;
    base + slot * 8 + Channel(port, nch)
  }

  /**
   * `get_rl_flags`: the OPM RL bits of a channel, both on for a YM2203 and
   * otherwise the cached OPN L/R bits in swapped order (the OPN keeps L in
   * the high bit, the OPM keeps R there).
   */
  function RlFlags(chip: Chip, lr: byte): (r: byte)
    ensures r <= 3
  {
    if chip == YM2203 then 3 else (lr % 2) * 2 + (lr / 2) % 2
  }

  /**
   * The PMS scaled by the LFO amplitude setting and capped at 7. The
   * conversion of the product to `uint8_t` is a floor for the values the
   * setting gives, taken modulo 256 beyond.
   */
  function ScaledPms(pms: nat, amplitude: real): (r: nat)
    requires amplitude >= 0.0
    ensures r <= 7
  {
    Min(7, (pms as real * amplitude).Floor % 256)
  }

  /**
   * `fnum_to_freq`: the tone frequency of an F-number and block. The product
   * of the clock and the F-number is taken in 32-bit unsigned arithmetic.
   */
  function FreqOf(s: Setup, fnum: nat, blk: nat): real
    requires blk <= 7 && s.div > 0.0
  {
    ((s.clock * fnum) % TWO32) as real / ((72.0 * s.div) * Pow2(20 - blk) as real)
  }

  /**
   * `freq_to_opm_note` on a register pair: F-number bits 10..2 and the block
   * of the high byte give the frequency; a frequency of 0 gives KC = KF = 0.
   */
  function NoteOf(semitones: OpmPitch.Semitones, s: Setup, hi: byte, lo: byte): (n: OpmPitch.Note)
    requires s.div > 0.0
    ensures n.kf < 64
  {
    var fnum := ((hi % 8) * 256 + lo) / 4;
    var blk := (hi / 8) % 8;
    var freq := FreqOf(s, fnum, blk);
    if freq <= 0.0 then OpmPitch.Note(0, 0)
    else OpmPitch.KeyToNote(OpmPitch.RMax(0.0, 60.0 + semitones(freq * s.ratio)))
  }

  // ------------------------------------------------------- the transcoder

  /** The register ranges that carry a channel number in their low bits. */
  predicate IsFreqReg(addr: byte)
  {
    0xA0 <= addr <= 0xA2 || 0xA4 <= addr <= 0xA6
  }

  /** The writes of the two port-0 registers that are not per channel: the LFO rate (0x22) and key on/off (0x28). */
  function SpecialOut(s: Setup, addr: byte, data: byte, port: nat): (out: seq<OpmWrite>)
    ensures |out| <= 1
  {
    if port == 0 && addr == 0x22 && s.chip != YM2203 then [OpmWrite(0x18, LFO_LUT[data % 16])]
    else if port == 0 && addr == 0x28 then
      match KeyOnChannel(data % 8)
      case None => []
      case Some(opmCh) => [OpmWrite(0x08, (data / 16) * 8 + opmCh)]
    else []
  }

  /**
   * The writes of a per-channel register: operator parameters, feedback and
   * connection, pan with AMS and PMS, and the pitch of an F-number pair. The
   * shadow is the one after the write is stored, the L/R cache the one
   * before it. Port 0 has no channel 3.
   */
  function ChannelOut(semitones: OpmPitch.Semitones, s: Setup, amplitude: real, regs: seq<byte>, lr: seq<byte>,
                      addr: byte, data: byte, port: nat): (out: seq<OpmWrite>)
    requires |regs| == 512 && |lr| == 8 && port <= 1 && amplitude >= 0.0 && s.div > 0.0
    ensures |out| <= 2
  {
    var nch := addr % 4;
    var ch := Channel(port, nch);
    if 0x30 <= addr <= 0x8F then
      if port == 0 && nch == 3 then [] else [OpmWrite(OperatorReg(port, addr), data)]
    else if 0xB0 <= addr <= 0xB2 then
      [OpmWrite(0x20 + ch, RlFlags(s.chip, lr[ch]) * 64 + data % 64)]
    else if 0xB4 <= addr <= 0xB6 then
      [OpmWrite(0x38 + ch, ScaledPms(data % 8, amplitude) * 16 + (data / 16) % 4),
       OpmWrite(0x20 + ch, RlFlags(s.chip, data / 64) * 64 + regs[256 * port + 0xB0 + nch] % 64)]
    else if IsFreqReg(addr) then
      var n := NoteOf(semitones, s, regs[256 * port + 0xA4 + nch], regs[256 * port + 0xA0 + nch]);
      [OpmWrite(0x28 + ch, n.kc), OpmWrite(0x30 + ch, n.kf * 4)]
    else []
  }

  /**
   * The OPM writes one accepted OPN write produces: the port-0 specials,
   * then the per-channel writes (the two never both apply).
   */
  function Emitted(semitones: OpmPitch.Semitones, s: Setup, amplitude: real, regs: seq<byte>, lr: seq<byte>,
                   addr: byte, data: byte, port: nat): (out: seq<OpmWrite>)
    requires |regs| == 512 && |lr| == 8 && port <= 1 && amplitude >= 0.0 && s.div > 0.0
    ensures |out| <= 2
  {
    SpecialOut(s, addr, data, port) + ChannelOut(semitones, s, amplitude, regs, lr, addr, data, port)
  }

  /** The L/R cache after a write: an L/R-AMS-PMS write (0xB4..0xB6) stores its top two bits for its channel. */
  function LrAfter(lr: seq<byte>, addr: byte, data: byte, port: nat): (r: seq<byte>)
    requires |lr| == 8 && port <= 1
    ensures |r| == 8
  {
    if 0xB4 <= addr <= 0xB6 then lr[Channel(port, addr % 4) := data / 64] else lr
  }

  class Transcoder {
    const semitones: OpmPitch.Semitones
    var setup: Setup
    /** `_regs[2][256]`: register `a` of port `p` at `256 * p + a`. */
    var regs: seq<byte>
    /** `_lr_cache`: the OPN L/R bits of each OPM channel. */
    var lrCache: seq<byte>
    /** Whether a writer callback is installed. */
    var hasWriter: bool
    /** `g_opn_lfo_amplitude`: the factor applied to the PMS. */
    var lfoAmplitude: real
    /** Everything handed to the writer callback so far. */
    var writes: seq<OpmWrite>

    predicate Valid()
      reads this
    {
      |regs| == 512 && |lrCache| == 8 && (forall i :: 0 <= i < 8 ==> lrCache[i] <= 3) &&
      lfoAmplitude >= 0.0 && (hasWriter ==> setup.div > 0.0)
    }

    /** The transcoder's statics before any call: all zero, no writer, and the amplitude at 0.90. */
    constructor (semitones: OpmPitch.Semitones)
      ensures Valid() && this.semitones == semitones
      ensures !hasWriter && writes == [] && regs == Zeros(512) && lfoAmplitude == 0.9
    {
      this.semitones := semitones;
      setup := Setup(NoChip, 0, 0.0, 0.0);
      regs := Zeros(512);
      lrCache := Zeros(8);
      hasWriter := false;
      lfoAmplitude := 0.9;
      writes := [];
    }

    /**
     * `opn_to_opm_init`: records the source chip, its clock and the clock
     * ratio, clears the shadow, sets every channel's L/R bits to both on, and
     * with a writer installed sends the three LFO set-up writes.
     */
    method Init(chip: Chip, clock: u32, writer: bool, ratio: real)
      requires Valid()
      modifies this
      ensures Valid()
      ensures setup == Setup(chip, clock, ratio, if chip == YM2203 then 1.0 else 2.0)
      ensures regs == Zeros(512) && lrCache == [3, 3, 3, 3, 3, 3, 3, 3] && hasWriter == writer
      ensures lfoAmplitude == old(lfoAmplitude)
      ensures writes == old(writes) + (if writer then INIT_WRITES else [])
    {
      var div := if chip == YM2203 then 1.0 else 2.0;
      setup := Setup(chip, clock, ratio, div);
      hasWriter := writer;
      regs := Zeros(512);
      lrCache := [3, 3, 3, 3, 3, 3, 3, 3];
      if writer {
        writes := writes + [OpmWrite(0x19, 0x10)];
        writes := writes + [OpmWrite(0x19, 0xA8)];
        writes := writes + [OpmWrite(0x1B, 0x02)];
      }
    }

    /**
     * `opn_to_opm_write_reg`: a write to a port above 1, or with no writer
     * installed, changes nothing. Otherwise the shadow stores it, the L/R
     * cache takes an L/R write, and the writer receives `Emitted`.
     */
    method WriteReg(addr: byte, data: byte, port: byte)
      requires Valid()
      modifies this
      ensures Valid()
      ensures setup == old(setup) && hasWriter == old(hasWriter) && lfoAmplitude == old(lfoAmplitude)
      ensures port > 1 || !hasWriter ==> regs == old(regs) && lrCache == old(lrCache) && writes == old(writes)
      ensures port <= 1 && hasWriter ==>
        regs == old(regs)[256 * port + addr := data] &&
        lrCache == LrAfter(old(lrCache), addr, data, port) &&
        writes == old(writes) + Emitted(semitones, setup, lfoAmplitude, regs, old(lrCache), addr, data, port)
    {
      if port > 1 || !hasWriter {
        return;
      }
      regs := regs[256 * port as int + addr as int := data];
      var opnCh := data % 8;
      SendSpecial(addr, data, port);
      if port == 0 && addr == 0x28 && (opnCh == 3 || opnCh > 6) {
        return;
      }
      SendChannel(addr, data, port);
    }

    /** The port-0 specials: the LFO rate through the table, and key on/off for the six OPN channels. */
    method SendSpecial(addr: byte, data: byte, port: byte)
      modifies this`writes
      ensures writes == old(writes) + SpecialOut(setup, addr, data, port)
    {
      if port == 0 {
        if addr == 0x22 && setup.chip != YM2203 {
          writes := writes + [OpmWrite(0x18, LFO_LUT[data % 16])];
        } else if addr == 0x28 {
          var opnCh := data % 8;
          if opnCh == 3 || opnCh > 6 {
            return;
          }
          var opmCh := if opnCh < 3 then opnCh else opnCh - 1;
          writes := writes + [OpmWrite(0x08, (data / 16) * 8 + opmCh)];
        }
      }
    }

    /** The per-channel registers, with the L/R cache updated by an L/R-AMS-PMS write. */
    method SendChannel(addr: byte, data: byte, port: byte)
      requires Valid() && port <= 1 && hasWriter
      modifies this`writes, this`lrCache
      ensures Valid()
      ensures lrCache == LrAfter(old(lrCache), addr, data, port)
      ensures writes == old(writes) + ChannelOut(semitones, setup, lfoAmplitude, regs, old(lrCache), addr, data, port)
    {
      hide NoteOf, ScaledPms;
      var nch := addr % 4;
      var ch := 3 * port + nch;
      if 0x30 <= addr <= 0x8F {
        if port == 0 && nch == 3 {
          return;
        }
        var slot := (addr / 4) % 4;
        var base := 0x40 + ((addr / 16) * 16 - 0x30) * 2;
        assert base + slot * 8 + ch == OperatorReg(port, addr);
        writes := writes + [OpmWrite(base + slot * 8 + ch, data)];
      } else if 0xB0 <= addr <= 0xB2 {
        writes := writes + [OpmWrite(0x20 + ch, RlFlags(setup.chip, lrCache[ch]) * 64 + data % 64)];
      } else if 0xB4 <= addr <= 0xB6 {
        SendPan(nch, data, port);
      } else if IsFreqReg(addr) {
        var n := NoteOf(semitones, setup, regs[256 * port + 0xA4 + nch], regs[256 * port + 0xA0 + nch]);
        writes := writes + [OpmWrite(0x28 + ch, n.kc)];
        writes := writes + [OpmWrite(0x30 + ch, n.kf * 4)];
      }
    }

    /** An L/R-AMS-PMS write for channel `nch` of a port: the L/R bits cached, then AMS/PMS and the pan sent. */
    method SendPan(nch: byte, data: byte, port: byte)
      requires Valid() && port <= 1 && nch <= 2 && hasWriter
      modifies this`writes, this`lrCache
      ensures Valid()
      ensures lrCache == old(lrCache)[Channel(port, nch) := data / 64]
      ensures writes == old(writes) + ChannelOut(semitones, setup, lfoAmplitude, regs, old(lrCache), 0xB4 + nch, data, port)
    {
      var ch := 3 * port + nch;
      lrCache := lrCache[ch := data / 64];
      var ams := (data / 16) % 4;
      var pms := data % 8;
      var scaled := ScaledPms(pms, lfoAmplitude);
      writes := writes + [OpmWrite(0x38 + ch, scaled * 16 + ams)];
      writes := writes + [OpmWrite(0x20 + ch, RlFlags(setup.chip, lrCache[ch]) * 64 + regs[256 * port + 0xB0 + nch] % 64)];
    }
  }

  // ------------------------------------------------------------ properties

  /**
   * Every per-channel write lands on the OPM channel of the OPN channel it
   * came from: a key-on addresses the channel whose operators, pan and pitch
   * the same OPN channel reaches, and every other channel register written
   * has that channel in its low three bits.
   */
  lemma EmittedChannel(semitones: OpmPitch.Semitones, s: Setup, amplitude: real, regs: seq<byte>, lr: seq<byte>,
                       addr: byte, data: byte, port: nat)
    requires |regs| == 512 && |lr| == 8 && port <= 1 && amplitude >= 0.0 && s.div > 0.0
    ensures var out := Emitted(semitones, s, amplitude, regs, lr, addr, data, port);
      forall w :: w in out && !(port == 0 && (addr == 0x22 || addr == 0x28)) ==>
        w.addr >= 0x20 && w.addr % 8 == Channel(port, addr % 4)
  {
    hide ChannelOut;
    if !(port == 0 && (addr == 0x22 || addr == 0x28)) {
      assert SpecialOut(s, addr, data, port) == [];
    }
    ChannelOutOnChannel(semitones, s, amplitude, regs, lr, addr, data, port);
  }

  /** Every write of a per-channel register addresses the OPM channel the OPN one maps to. */
  lemma ChannelOutOnChannel(semitones: OpmPitch.Semitones, s: Setup, amplitude: real, regs: seq<byte>, lr: seq<byte>,
                            addr: byte, data: byte, port: nat)
    requires |regs| == 512 && |lr| == 8 && port <= 1 && amplitude >= 0.0 && s.div > 0.0
    ensures forall w :: w in ChannelOut(semitones, s, amplitude, regs, lr, addr, data, port) ==>
      w.addr >= 0x20 && w.addr % 8 == Channel(port, addr % 4)
  {
    hide NoteOf, ScaledPms, RlFlags;
    if 0x30 <= addr <= 0x8F && !(port == 0 && addr % 4 == 3) {
      OperatorRegFields(port, addr);
    }
  }

  /** A key-on for an OPN channel addresses the OPM channel its port and channel number map to, with the slot mask in bits 6..3. */
  lemma KeyOnMatchesChannel(port: nat, nch: nat, slots: nat)
    requires port <= 1 && nch <= 2 && slots < 16
    ensures var data := slots * 16 + 4 * port + nch;
      KeyOnChannel(data % 8) == Some(Channel(port, nch)) && data / 16 == slots
  {
    var low := 4 * port + nch;
    var data := slots * 16 + low;
    assert low < 8 && low != 3;
    assert data % 8 == low && data / 16 == slots by {
      assert data == 8 * (2 * slots) + low;
    }
  }

  /** An operator register decodes back to its register group, operator slot and channel. */
  lemma OperatorRegFields(port: nat, addr: byte)
    requires port <= 1 && 0x30 <= addr <= 0x8F && !(port == 0 && addr % 4 == 3)
    ensures var r := OperatorReg(port, addr);
      r / 32 == addr / 16 - 1 && (r % 32) / 8 == (addr / 4) % 4 && r % 8 == Channel(port, addr % 4)
  {
    var r := OperatorReg(port, addr);
    var base := 0x40 + ((addr / 16) * 16 - 0x30) * 2;
    assert base == 32 * (addr / 16 - 1);
    assert r == 32 * (addr / 16 - 1) + 8 * ((addr / 4) % 4) + Channel(port, addr % 4);
  }

  lemma ByteFields(a: byte)
    ensures a == 16 * (a / 16) + 4 * ((a / 4) % 4) + a % 4
  {
  }

  /** Distinct OPN operator registers reach distinct OPM registers. */
  lemma OperatorRegInjective(p1: nat, a1: byte, p2: nat, a2: byte)
    requires p1 <= 1 && 0x30 <= a1 <= 0x8F && !(p1 == 0 && a1 % 4 == 3)
    requires p2 <= 1 && 0x30 <= a2 <= 0x8F && !(p2 == 0 && a2 % 4 == 3)
    requires OperatorReg(p1, a1) == OperatorReg(p2, a2)
    ensures p1 == p2 && a1 == a2
  {
    hide OperatorReg;
    OperatorRegFields(p1, a1);
    OperatorRegFields(p2, a2);
    assert 3 * p1 + a1 % 4 == 3 * p2 + a2 % 4;
    assert p1 == p2;
    ByteFields(a1);
    ByteFields(a2);
  }

  /**
   * An L/R-AMS-PMS write on a YM2612 or YM2608 reaches the OPM with its pan
   * intact: the OPM's R bit (7) is the OPN's R bit (6) and the OPM's L bit
   * (6) the OPN's L bit (7), the connection and feedback come from the
   * shadowed 0xB0 register, and the AMS is kept under a PMS of at most 7. A
   * YM2203 has no pan: both sides are on.
   */
  lemma PanSwapped(semitones: OpmPitch.Semitones, s: Setup, amplitude: real, regs: seq<byte>, lr: seq<byte>,
                   addr: byte, data: byte, port: nat)
    requires |regs| == 512 && |lr| == 8 && port <= 1 && amplitude >= 0.0 && s.div > 0.0
    requires 0xB4 <= addr <= 0xB6
    ensures var out := Emitted(semitones, s, amplitude, regs, lr, addr, data, port);
      var conn := regs[256 * port + 0xB0 + addr % 4];
      |out| == 2 && out[1].addr == 0x20 + Channel(port, addr % 4) &&
      out[1].data % 64 == conn % 64 &&
      (s.chip != YM2203 ==> (out[1].data / 128 == (data / 64) % 2 && (out[1].data / 64) % 2 == data / 128)) &&
      (s.chip == YM2203 ==> out[1].data / 64 == 3) &&
      out[0].addr == 0x38 + Channel(port, addr % 4) && out[0].data % 16 == (data / 16) % 4 && out[0].data / 16 <= 7
  {
  }

  /** Swapping the L/R bits twice gives them back: the swap loses no pan setting. */
  lemma RlSwapInvolution(chip: Chip, lr: byte)
    requires chip != YM2203 && lr <= 3
    ensures RlFlags(chip, RlFlags(chip, lr)) == lr
  {
  }

  /**
   * Either half of an F-number register pair re-sends the same pitch, taken
   * from the shadow of both halves: the KC to 0x28 + ch and the KF, shifted
   * into bits 7..2, to 0x30 + ch.
   */
  lemma PitchFromPair(semitones: OpmPitch.Semitones, s: Setup, amplitude: real, regs: seq<byte>, lr: seq<byte>,
                      nch: byte, data: byte, data': byte, port: nat)
    requires |regs| == 512 && |lr| == 8 && port <= 1 && amplitude >= 0.0 && s.div > 0.0 && nch <= 2
    ensures var lo := Emitted(semitones, s, amplitude, regs, lr, 0xA0 + nch, data, port);
      var hi := Emitted(semitones, s, amplitude, regs, lr, 0xA4 + nch, data', port);
      var n := NoteOf(semitones, s, regs[256 * port + 0xA4 + nch], regs[256 * port + 0xA0 + nch]);
      lo == hi && lo == [OpmWrite(0x28 + Channel(port, nch), n.kc), OpmWrite(0x30 + Channel(port, nch), n.kf * 4)] &&
      lo[1].data % 4 == 0
  {
    hide NoteOf;
  }

  /** A silent pair (F-number bits 10..2 all zero) sends KC = KF = 0. */
  lemma ZeroFnumSilent(semitones: OpmPitch.Semitones, s: Setup, hi: byte, lo: byte)
    requires s.div > 0.0 && hi % 8 == 0 && lo < 4
    ensures NoteOf(semitones, s, hi, lo) == OpmPitch.Note(0, 0)
  {
    assert ((hi % 8) * 256 + lo) / 4 == 0;
  }

  /** The LFO rate goes through the table only for an OPN with an LFO; on a YM2203 register 0x22 produces nothing. */
  lemma LfoRate(semitones: OpmPitch.Semitones, s: Setup, amplitude: real, regs: seq<byte>, lr: seq<byte>, data: byte)
    requires |regs| == 512 && |lr| == 8 && amplitude >= 0.0 && s.div > 0.0
    ensures var out := Emitted(semitones, s, amplitude, regs, lr, 0x22, data, 0);
      (s.chip != YM2203 ==> out == [OpmWrite(0x18, LFO_LUT[data % 16])]) &&
      (s.chip == YM2203 ==> out == []) &&
      (data % 16 < 8 ==> s.chip != YM2203 ==> out[0].data == 0)
  {
  }
}
