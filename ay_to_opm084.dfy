// The v0.884 AY8910-to-OPM transcoder. Beside the v0.87 conversion it steps
// the AY envelope in software and plays envelope-mode channels at the
// envelope's current level; the writes go through an installable callback,
// and the pitch uses the plain clock ratio (the divider is kept but unused).

module V0884AyToOpm {
  import opened Bytes
  import opened ChipType
  import OpmPitch
  import Ay = V0087AyToOpm

  /** What a segment of an envelope shape does at each envelope step. */
  datatype Proc = SlideUp | SlideDown | HoldBottom | HoldTop

  /** The two segments of each of the sixteen envelope shapes. */
  const ENVELOPE_SHAPES: seq<(Proc, Proc)> := [
    (SlideDown, HoldBottom), (SlideDown, HoldBottom), (SlideDown, HoldBottom), (SlideDown, HoldBottom),
    (SlideUp, HoldBottom), (SlideUp, HoldBottom), (SlideUp, HoldBottom), (SlideUp, HoldBottom),
    (SlideDown, SlideDown), (SlideDown, HoldBottom), (SlideDown, SlideUp), (SlideDown, HoldTop),
    (SlideUp, SlideUp), (SlideUp, HoldTop), (SlideUp, SlideDown), (SlideUp, HoldBottom)]

  function SegmentProc(shape: nat, segment: nat): Proc
    requires shape < 16 && segment < 2
  {
    if segment == 0 then ENVELOPE_SHAPES[shape].0 else ENVELOPE_SHAPES[shape].1
  }

  /** `_reset_envelope_segment`: a segment starts at the top (31) when it slides down or holds the top, else at 0. */
  function SegmentStart(shape: nat, segment: nat): (v: int)
    requires shape < 16 && segment < 2
    ensures v == 0 || v == 31
    ensures v == 31 <==> SegmentProc(shape, segment) in {SlideDown, HoldTop}
  {
    var p := SegmentProc(shape, segment);
    if p == SlideDown || p == HoldTop then 31 else 0
  }

  /** The envelope generator's statics. */
  datatype Envelope = Envelope(counter: nat, period: nat, shape: nat, segment: nat, value: int)

  /** What every operation keeps: a period of at least one, a shape and segment that index the table, a 5-bit level. */
  predicate EnvGood(e: Envelope)
  {
    e.period >= 1 && e.shape < 16 && e.segment < 2 && 0 <= e.value <= 31
  }

  /** The statics before any write: counter 0, period 1, shape 0, segment 0, level 0. */
  const ENV_START: Envelope := Envelope(0, 1, 0, 0, 0)

  /**
   * `ay_to_opm_update_envelope` on the envelope: the counter advances; once
   * it reaches the period it restarts and the current segment acts, a slide
   * that runs past either end switching to the other segment (`segment ^= 1`)
   * at that segment's start.
   */
  function EnvStep(e: Envelope): (r: Envelope)
    requires EnvGood(e)
    ensures EnvGood(r) && r.counter < r.period
    ensures r.period == e.period && r.shape == e.shape
    ensures e.counter + 1 < e.period ==> r == e.(counter := e.counter + 1)
    ensures e.counter + 1 >= e.period ==> r.counter == 0
  {
    var c := e.counter + 1;
    if c < e.period then e.(counter := c)
    else
      match SegmentProc(e.shape, e.segment)
      case SlideUp =>
        if e.value + 1 > 31 then
          var s := 1 - e.segment;
          e.(counter := 0, segment := s, value := SegmentStart(e.shape, s))
        else e.(counter := 0, value := e.value + 1)
      case SlideDown =>
        if e.value - 1 < 0 then
          var s := 1 - e.segment;
          e.(counter := 0, segment := s, value := SegmentStart(e.shape, s))
        else e.(counter := 0, value := e.value - 1)
      case _ => e.(counter := 0)
  }

  /** The envelope step is due: the counter reaches the period on this call. */
  predicate Wraps(e: Envelope)
  {
    e.counter + 1 >= e.period
  }

  /** `n` calls of the envelope update. */
  function EnvSteps(e: Envelope, n: nat): (r: Envelope)
    requires EnvGood(e)
    ensures EnvGood(r)
    decreases n
  {
    if n == 0 then e else EnvSteps(EnvStep(e), n - 1)
  }

  /** The envelope after a write of `data` to register `addr`, given the shadow `regs` after it. */
  function EnvWrite(e: Envelope, regs: seq<byte>, addr: nat, data: byte): (r: Envelope)
    requires EnvGood(e) && |regs| == 16
    ensures EnvGood(r)
  {
    if addr == 11 || addr == 12 then
      var p := regs[12] as int * 256 + regs[11] as int;
      e.(period := if p == 0 then 1 else p)
    else if addr == 13 then
      var sh := data % 16;
      e.(shape := sh, counter := 0, segment := 0, value := SegmentStart(sh, 0))
    else e
  }

  /** `_y`: a write reaches the chip only through an installed callback. */
  function Emit(writer: bool, out: seq<Ay.OpmCall>): seq<Ay.OpmCall>
  {
    if writer then out else []
  }

  lemma EmitAppend(writer: bool, a: seq<Ay.OpmCall>, b: seq<Ay.OpmCall>)
    ensures Emit(writer, a + b) == Emit(writer, a) + Emit(writer, b)
    ensures Emit(writer, []) == []
  {
  }

  /** `freqToOPMNote(freq, clockRatio)`: the note of a frequency scaled by the clock ratio. */
  function ToneNote(semitones: OpmPitch.Semitones, freq: real, clockRatio: real): (n: OpmPitch.Note)
    ensures freq <= 0.0 && clockRatio >= 0.0 ==> n == OpmPitch.Note(0, 0)
    ensures n.kf < 64
  {
    OpmPitch.FreqToNote(semitones, freq * clockRatio, 0.0)
  }

  /** The carrier TL of a tone channel: 0x7F with the tone off, else from its volume, or in envelope mode from the envelope level halved. */
  function ToneLevel(regs: seq<byte>, value: int, ch: nat): (tl: byte)
    requires |regs| == 16 && 0 <= value <= 31 && ch < 3
  {
    if Ay.ToneOn(regs, ch) then
      var v := regs[8 + ch];
      var tVol := if (v / 16) % 2 == 1 then value / 2 else v % 16;
      Min(127, Ay.VOL_TO_TL[tVol % 16])
    else 0x7F
  }

  /** `_updateTone`: the carrier TL of OPM channel `4 + ch`. */
  function ToneOut(regs: seq<byte>, value: int, ch: nat): (out: seq<Ay.OpmCall>)
    requires |regs| == 16 && 0 <= value <= 31 && ch < 3
  {
    [Ay.Opm(0x70 + Ay.OPM_CH_BASE + ch, ToneLevel(regs, value, ch))]
  }

  /** A channel whose amplitude register selects the envelope. */
  predicate EnvelopeMode(regs: seq<byte>, ch: nat)
    requires |regs| == 16 && ch < 3
  {
    (regs[8 + ch] / 16) % 2 == 1
  }

  /** The TL updates of the envelope-mode channels among the first `n`, in channel order. */
  function EnvToneOut(regs: seq<byte>, value: int, n: nat): (out: seq<Ay.OpmCall>)
    requires |regs| == 16 && 0 <= value <= 31 && n <= 3
  {
    if n == 0 then []
    else EnvToneOut(regs, value, n - 1) + (if EnvelopeMode(regs, n - 1) then ToneOut(regs, value, n - 1) else [])
  }

  /** What a write to `addr` sends, given the shadow after it and the envelope level. */
  function WriteOut(semitones: OpmPitch.Semitones, clockRatio: real, clock: u32, regs: seq<byte>, value: int, addr: nat): (out: seq<Ay.OpmCall>)
    requires |regs| == 16 && 0 <= value <= 31 && addr < 16
  {
    if addr <= 5 then
      var ch := addr / 2;
      Ay.FreqOut(ch, ToneNote(semitones, Ay.ToneFreq(clock, Ay.TonePeriod(regs, ch)), clockRatio))
    else if 8 <= addr <= 10 then ToneOut(regs, value, addr - 8) + Ay.NoiseOut(regs)
    else if addr == 6 then Ay.NoiseOut(regs)
    else if addr == 7 then ToneOut(regs, value, 0) + ToneOut(regs, value, 1) + ToneOut(regs, value, 2) + Ay.NoiseOut(regs)
    else []
  }

  class Converter {
    const semitones: OpmPitch.Semitones
    var regs: seq<byte>
    var clockRatio: real
    var sourceClock: u32
    var sourceChip: Chip
    var fdiv: nat
    /** Whether a write callback is installed. */
    var writer: bool
    var counter: nat
    var period: nat
    var shape: nat
    var segment: nat
    var value: int
    /** Every write made through the callback so far. */
    var calls: seq<Ay.OpmCall>

    function Env(): Envelope
      reads this
    {
      Envelope(counter, period, shape, segment, value)
    }

    predicate Valid()
      reads this
    {
      |regs| == 16 && clockRatio >= 0.0 && EnvGood(Env())
    }

    /** The statics before `ay_to_opm_init`: zeroed, no callback, the envelope at its start. */
    constructor (semitones: OpmPitch.Semitones)
      ensures Valid()
      ensures this.semitones == semitones && regs == Zeros(16) && !writer && Env() == ENV_START && calls == []
    {
      this.semitones := semitones;
      regs := Zeros(16);
      clockRatio := 0.0;
      sourceClock := 0;
      sourceChip := NoChip;
      fdiv := 0;
      writer := false;
      counter := 0;
      period := 1;
      shape := 0;
      segment := 0;
      value := 0;
      calls := [];
    }

    /**
     * `ay_to_opm_init`: records the source and the callback, sets the clock
     * ratio of the source clock to the OPM clock, clears the shadow, and
     * sets up the three tone channels and the noise operator. The envelope
     * is left as it was.
     */
    method Init(chip: Chip, clock: u32, opmClock: real, hasWriter: bool)
      requires Valid() && opmClock > 0.0
      modifies this`regs, this`clockRatio, this`sourceClock, this`sourceChip, this`fdiv, this`writer, this`calls
      ensures Valid()
      ensures sourceChip == chip && sourceClock == clock && clockRatio == clock as real / opmClock
      ensures fdiv == (if chip == AY8910 then 2 else 4) && writer == hasWriter
      ensures regs == Zeros(16)
      ensures calls == old(calls) + Emit(hasWriter, Ay.ToneSetups(3) + Ay.NOISE_SETUP)
    {
      hide Ay.ToneSetups, Ay.ToneSetup, Emit;
      sourceChip := chip;
      sourceClock := clock;
      writer := hasWriter;
      clockRatio := clock as real / opmClock;
      fdiv := if chip == AY8910 then 2 else 4;
      regs := Zeros(16);
      SetUpChannels();
    }

    /** The channel set-up of `ay_to_opm_init`: the three tone channels in turn, then the noise operator. */
    method SetUpChannels()
      modifies this`calls
      ensures calls == old(calls) + Emit(writer, Ay.ToneSetups(3) + Ay.NOISE_SETUP)
    {
      hide Ay.ToneSetup, Emit;
      var start := calls;
      var opmCh := Ay.OPM_CH_BASE;
      EmitAppend(writer, [], []);
      assert Ay.ToneSetups(0) == [];
      while opmCh < Ay.OPM_CH_BASE + 3
        invariant Ay.OPM_CH_BASE <= opmCh <= Ay.OPM_CH_BASE + 3
        invariant calls == start + Emit(writer, Ay.ToneSetups(opmCh - Ay.OPM_CH_BASE))
      {
        calls := calls + Emit(writer, Ay.ToneSetup(opmCh));
        EmitAppend(writer, Ay.ToneSetups(opmCh - Ay.OPM_CH_BASE), Ay.ToneSetup(opmCh));
        opmCh := opmCh + 1;
      }
      calls := calls + Emit(writer, Ay.NOISE_SETUP);
      EmitAppend(writer, Ay.ToneSetups(3), Ay.NOISE_SETUP);
    }

    method UpdateFreq(ch: nat, freq: real)
      requires ch < 3
      modifies this`calls
      ensures calls == old(calls) + Emit(writer, Ay.FreqOut(ch, ToneNote(semitones, freq, clockRatio)))
    {
      var n := ToneNote(semitones, freq, clockRatio);
      var opmCh := ch + Ay.OPM_CH_BASE;
      calls := calls + Emit(writer, [Ay.Opm(0x28 + opmCh, n.kc)]);
      calls := calls + Emit(writer, [Ay.Opm(0x30 + opmCh, n.kf * 4)]);
    }

    method UpdateNoise()
      requires |regs| == 16
      modifies this`calls
      ensures calls == old(calls) + Emit(writer, Ay.NoiseOut(regs))
    {
      var nVol := 0;
      var i := 0;
      while i < 3
        invariant 0 <= i <= 3 && nVol == Ay.NoiseVol(regs, i)
      {
        if (regs[7] / Ay.Pow2(i + 3)) % 2 == 0 {
          nVol := Max(nVol, regs[8 + i] % 16);
        }
        i := i + 1;
      }
      var nfreq := regs[6] % 32;
      calls := calls + Emit(writer, [Ay.Opm(0x0F, 0x80 + (0x1F - nfreq))]);
      calls := calls + Emit(writer, [Ay.Opm(0x7F, Min(127, Ay.N_VOL_TO_TL[nVol]))]);
    }

    method UpdateTone(ch: nat)
      requires Valid() && ch < 3
      modifies this`calls
      ensures calls == old(calls) + Emit(writer, ToneOut(regs, value, ch))
    {
      var opmCh := ch + Ay.OPM_CH_BASE;
      if (regs[7] / Ay.Pow2(ch)) % 2 == 0 {
        var v := regs[8 + ch];
        var tVol := if (v / 16) % 2 == 1 then value / 2 else v % 16;
        calls := calls + Emit(writer, [Ay.Opm(0x70 + opmCh, Min(127, Ay.VOL_TO_TL[tVol % 16]))]);
      } else {
        calls := calls + Emit(writer, [Ay.Opm(0x70 + opmCh, 0x7F)]);
      }
    }

    /** `_reset_envelope_segment`: the level jumps to the start of the current segment. */
    method ResetSegment()
      requires shape < 16 && segment < 2
      modifies this`value
      ensures value == SegmentStart(shape, segment)
    {
      var proc := SegmentProc(shape, segment);
      if proc == SlideDown || proc == HoldTop {
        value := 31;
      } else {
        value := 0;
      }
    }

    /**
     * `ay_to_opm_update_envelope`: one tick of the envelope; when the step
     * falls due, the envelope-mode channels get their new TL.
     */
    method UpdateEnvelope()
      requires Valid()
      modifies this`counter, this`segment, this`value, this`calls
      ensures Valid()
      ensures Env() == EnvStep(old(Env()))
      ensures calls == old(calls) + (if Wraps(old(Env())) then Emit(writer, EnvToneOut(regs, value, 3)) else [])
    {
      counter := counter + 1;
      if counter >= period {
        counter := 0;
        match SegmentProc(shape, segment) {
          case SlideUp =>
            value := value + 1;
            if value > 31 {
              segment := 1 - segment;
              ResetSegment();
            }
          case SlideDown =>
            value := value - 1;
            if value < 0 {
              segment := 1 - segment;
              ResetSegment();
            }
          case _ =>
        }
        UpdateEnvelopeTones();
      }
    }

    /** The loop of `ay_to_opm_update_envelope` over the channels in envelope mode. */
    method UpdateEnvelopeTones()
      requires Valid()
      modifies this`calls
      ensures calls == old(calls) + Emit(writer, EnvToneOut(regs, value, 3))
    {
      hide ToneOut;
      var start := calls;
      var i := 0;
      while i < 3
        invariant 0 <= i <= 3
        invariant calls == start + Emit(writer, EnvToneOut(regs, value, i))
      {
        if (regs[8 + i] / 16) % 2 == 1 {
          UpdateTone(i);
        }
        i := i + 1;
      }
    }

    /**
     * `ay_to_opm_write_reg`: a register above 15 is ignored outright;
     * otherwise the shadow takes the write, the affected pitch, levels or
     * noise are sent, and the envelope registers set the period or restart
     * the envelope with a new shape, sending nothing.
     */
    method WriteReg(addr: byte, data: byte)
      requires Valid()
      modifies this`regs, this`calls, this`counter, this`period, this`shape, this`segment, this`value
      ensures Valid()
      ensures addr > 15 ==> regs == old(regs) && Env() == old(Env()) && calls == old(calls)
      ensures addr <= 15 ==>
        regs == old(regs)[addr := data] &&
        Env() == EnvWrite(old(Env()), regs, addr, data) &&
        calls == old(calls) + Emit(writer, WriteOut(semitones, clockRatio, sourceClock, regs, value, addr))
    {
      if addr > 15 {
        return;
      }
      regs := regs[addr := data];
      if addr <= 10 {
        WriteSound(addr);
      } else {
        WriteEnvelope(addr, data);
      }
    }

    /** The tone, amplitude, noise and mixer registers: what the write to `addr` sends. */
    method WriteSound(addr: nat)
      requires Valid() && addr <= 10
      modifies this`calls
      ensures calls == old(calls) + Emit(writer, WriteOut(semitones, clockRatio, sourceClock, regs, value, addr))
    {
      if addr <= 5 {
        WriteTonePeriod(addr / 2);
      } else {
        WriteLevels(addr);
      }
    }

    /** A write to either period register of channel `ch` sends its new pitch. */
    method WriteTonePeriod(ch: nat)
      requires Valid() && ch < 3
      modifies this`calls
      ensures calls == old(calls) + Emit(writer, WriteOut(semitones, clockRatio, sourceClock, regs, value, 2 * ch))
      ensures calls == old(calls) + Emit(writer, WriteOut(semitones, clockRatio, sourceClock, regs, value, 2 * ch + 1))
    {
      hide Ay.FreqOut, ToneNote;
      var tp: nat := (regs[ch * 2 + 1] as int % 16) * 256 + regs[ch * 2] as int;
      if tp == 0 {
        UpdateFreq(ch, 0.0);
      } else {
        var freq := sourceClock as real / (16 * tp) as real;
        UpdateFreq(ch, freq);
      }
    }

    /** A write to the noise period, the mixer or an amplitude register sends the levels and the noise it affects. */
    method WriteLevels(addr: nat)
      requires Valid() && 6 <= addr <= 10
      modifies this`calls
      ensures calls == old(calls) + Emit(writer, WriteOut(semitones, clockRatio, sourceClock, regs, value, addr))
    {
      hide Ay.NoiseOut, ToneOut;
      if 8 <= addr <= 10 {
        UpdateTone(addr - 8);
        UpdateNoise();
      } else if addr == 6 {
        UpdateNoise();
      } else if addr == 7 {
        UpdateTone(0);
        UpdateTone(1);
        UpdateTone(2);
        UpdateNoise();
      }
    }

    /** The envelope registers: 11 and 12 set the period (never below 1), 13 restarts the envelope with a new shape. */
    method WriteEnvelope(addr: nat, data: byte)
      requires Valid() && 11 <= addr <= 15
      modifies this`counter, this`period, this`shape, this`segment, this`value
      ensures Valid()
      ensures Env() == EnvWrite(old(Env()), regs, addr, data)
    {
      if addr == 11 || addr == 12 {
        period := regs[12] as int * 256 + regs[11] as int;
        if period == 0 {
          period := 1;
        }
      } else if addr == 13 {
        shape := data % 16;
        counter := 0;
        segment := 0;
        ResetSegment();
      }
    }
  }

  // ----------------------------------------------------------- properties

  /** A zero tone period sends key code and key fraction 0, whichever of the two period registers was written. */
  lemma ZeroPeriodSilentPitch(semitones: OpmPitch.Semitones, clockRatio: real, clock: u32, regs: seq<byte>, value: int, ch: nat)
    requires |regs| == 16 && 0 <= value <= 31 && ch < 3 && clockRatio >= 0.0 && Ay.TonePeriod(regs, ch) == 0
    ensures WriteOut(semitones, clockRatio, clock, regs, value, 2 * ch) == [Ay.Opm(0x2C + ch, 0), Ay.Opm(0x34 + ch, 0)]
    ensures WriteOut(semitones, clockRatio, clock, regs, value, 2 * ch + 1) == [Ay.Opm(0x2C + ch, 0), Ay.Opm(0x34 + ch, 0)]
  {
  }

  /** A channel whose tone bit is set in the mixer is muted. */
  lemma ToneMutedByMixer(regs: seq<byte>, value: int, ch: nat)
    requires |regs| == 16 && 0 <= value <= 31 && ch < 3 && !Ay.ToneOn(regs, ch)
    ensures ToneLevel(regs, value, ch) == 0x7F
  {
  }

  /** A sounding envelope-mode channel plays at half the envelope level, any other at its own volume. */
  lemma ToneVolumeIndex(regs: seq<byte>, value: int, ch: nat)
    requires |regs| == 16 && 0 <= value <= 31 && ch < 3 && Ay.ToneOn(regs, ch)
    ensures EnvelopeMode(regs, ch) ==> ToneLevel(regs, value, ch) == Ay.VOL_TO_TL[value / 2]
    ensures !EnvelopeMode(regs, ch) ==> ToneLevel(regs, value, ch) == Ay.VOL_TO_TL[regs[8 + ch] % 16]
  {
    var t := if EnvelopeMode(regs, ch) then value / 2 else regs[8 + ch] % 16;
    assert 0 <= t < 16 && t % 16 == t;
    Ay.VolumeTableBelowMute();
    assert Min(127, Ay.VOL_TO_TL[t]) == Ay.VOL_TO_TL[t];
  }

  /** In envelope mode a higher envelope level never gives a higher TL (a quieter note). */
  lemma EnvelopeLevelMonotone(regs: seq<byte>, a: int, b: int, ch: nat)
    requires |regs| == 16 && 0 <= a <= b <= 31 && ch < 3 && EnvelopeMode(regs, ch)
    ensures ToneLevel(regs, a, ch) >= ToneLevel(regs, b, ch)
  {
    if Ay.ToneOn(regs, ch) {
      ToneVolumeIndex(regs, a, ch);
      ToneVolumeIndex(regs, b, ch);
      if a / 2 < b / 2 {
        Ay.VolumeTablesDecrease(a / 2, b / 2);
      }
    }
  }

  /** Writes to the envelope registers (and the I/O ports) send nothing. */
  lemma EnvelopeRegistersSilent(semitones: OpmPitch.Semitones, clockRatio: real, clock: u32, regs: seq<byte>, value: int, addr: nat)
    requires |regs| == 16 && 0 <= value <= 31 && 11 <= addr < 16
    ensures WriteOut(semitones, clockRatio, clock, regs, value, addr) == []
  {
  }

  /** A write to 11 or 12 sets only the period: the 16-bit value of the pair, or 1 in place of 0. */
  lemma PeriodWrite(e: Envelope, regs: seq<byte>, addr: nat, data: byte)
    requires EnvGood(e) && |regs| == 16 && (addr == 11 || addr == 12)
    ensures var r := EnvWrite(e, regs, addr, data);
      r.period >= 1 && r == e.(period := r.period) &&
      (regs[11] != 0 || regs[12] != 0 ==> r.period == regs[12] as int * 256 + regs[11] as int)
  {
  }

  /** A shape write restarts the envelope: counter and segment 0, and the level at the bottom exactly when the shape's attack bit (bit 2) is set. */
  lemma ShapeStartFollowsAttack(e: Envelope, regs: seq<byte>, data: byte)
    requires EnvGood(e) && |regs| == 16
    ensures var r := EnvWrite(e, regs, 13, data);
      r.shape == data % 16 && r.counter == 0 && r.segment == 0 && r.period == e.period &&
      (r.value == 0 <==> (r.shape / 4) % 2 == 1) && (r.value == 31 <==> (r.shape / 4) % 2 == 0)
  {
    var sh := data % 16;
    ShapeTableDecodesBits(sh);
    assert SegmentProc(sh, 0) == DecodedSegments(sh).0;
  }

  /**
   * The shape table is the AY8910 decoding of the four shape bits: the first
   * segment rises when ATTACK (bit 2) is set; without CONTINUE (bit 3) the
   * second holds the bottom; with it, HOLD (bit 0) holds the top exactly
   * when ATTACK and ALTERNATE (bit 1) differ, and otherwise the second
   * segment repeats the first, or reverses it under ALTERNATE.
   */
  function DecodedSegments(shape: nat): (Proc, Proc)
    requires shape < 16
  {
    var cont := (shape / 8) % 2 == 1;
    var att := (shape / 4) % 2 == 1;
    var alt := (shape / 2) % 2 == 1;
    var hold := shape % 2 == 1;
    var first := if att then SlideUp else SlideDown;
    var second :=
      if !cont then HoldBottom
      else if hold then (if att != alt then HoldTop else HoldBottom)
      else if alt then (if att then SlideDown else SlideUp)
      else first;
    (first, second)
  }

  lemma ShapeTableDecodesBits(shape: nat)
    requires shape < 16
    ensures ENVELOPE_SHAPES[shape] == DecodedSegments(shape)
  {
  }

  /** A hold segment leaves the level and the segment as they are; only the counter moves. */
  lemma HoldSegmentsStay(e: Envelope)
    requires EnvGood(e) && SegmentProc(e.shape, e.segment) in {HoldBottom, HoldTop}
    ensures EnvStep(e).value == e.value && EnvStep(e).segment == e.segment
  {
  }

  /** When the step falls due a slide moves the level by one inside the range, and past either end switches segment. */
  lemma SlideMovesByOne(e: Envelope)
    requires EnvGood(e) && Wraps(e)
    ensures var r := EnvStep(e);
      r.counter == 0 &&
      (SegmentProc(e.shape, e.segment) == SlideUp && e.value < 31 ==> r.value == e.value + 1 && r.segment == e.segment) &&
      (SegmentProc(e.shape, e.segment) == SlideDown && e.value > 0 ==> r.value == e.value - 1 && r.segment == e.segment) &&
      (SegmentProc(e.shape, e.segment) == SlideUp && e.value == 31 ==> r.segment == 1 - e.segment) &&
      (SegmentProc(e.shape, e.segment) == SlideDown && e.value == 0 ==> r.segment == 1 - e.segment)
  {
  }

  /** Before the step falls due, an update only counts. */
  lemma {:induction false} CounterCounts(e: Envelope, k: nat)
    requires EnvGood(e) && e.counter + k < e.period
    ensures EnvSteps(e, k) == e.(counter := e.counter + k)
    decreases k
  {
    if k > 0 {
      assert EnvStep(e) == e.(counter := e.counter + 1);
      CounterCounts(EnvStep(e), k - 1);
    }
  }

  lemma {:induction false} EnvStepsLast(e: Envelope, n: nat)
    requires EnvGood(e)
    ensures EnvSteps(e, n + 1) == EnvStep(EnvSteps(e, n))
    decreases n
  {
    if n > 0 {
      EnvStepsLast(EnvStep(e), n - 1);
    }
  }

  /** From a fresh count the envelope acts once every `period` updates: the first `period - 1` only count, the next one steps. */
  lemma StepsOncePerPeriod(e: Envelope)
    requires EnvGood(e) && e.counter == 0
    ensures EnvSteps(e, e.period - 1) == e.(counter := e.period - 1)
    ensures EnvSteps(e, e.period) == EnvStep(e.(counter := e.period - 1)) && EnvSteps(e, e.period).counter == 0
  {
    hide EnvStep, EnvSteps;
    var last := e.(counter := e.period - 1);
    CounterCounts(e, e.period - 1);
    EnvStepsLast(e, e.period - 1);
  }

  /** `c` is the TL update of one of the first `n` channels, and that channel is in envelope mode. */
  predicate EnvToneCall(regs: seq<byte>, value: int, n: nat, c: Ay.OpmCall)
    requires |regs| == 16 && 0 <= value <= 31 && n <= 3
  {
    exists ch: nat :: ch < n && EnvelopeMode(regs, ch) && c == Ay.Opm(0x74 + ch, ToneLevel(regs, value, ch))
  }

  /** The envelope update sends the new TL of every envelope-mode channel and nothing else. */
  lemma {:induction false} EnvToneOutChannels(regs: seq<byte>, value: int, n: nat)
    requires |regs| == 16 && 0 <= value <= 31 && n <= 3
    ensures forall c :: c in EnvToneOut(regs, value, n) ==> EnvToneCall(regs, value, n, c)
    ensures forall ch: nat :: ch < n && EnvelopeMode(regs, ch) ==> Ay.Opm(0x74 + ch, ToneLevel(regs, value, ch)) in EnvToneOut(regs, value, n)
  {
    if n > 0 {
      EnvToneOutChannels(regs, value, n - 1);
      var pre := EnvToneOut(regs, value, n - 1);
      var last := if EnvelopeMode(regs, n - 1) then ToneOut(regs, value, n - 1) else [];
      assert EnvToneOut(regs, value, n) == pre + last;
      forall c | c in pre + last
        ensures EnvToneCall(regs, value, n, c)
      {
        if c in pre {
          var ch: nat :| ch < n - 1 && EnvelopeMode(regs, ch) && c == Ay.Opm(0x74 + ch, ToneLevel(regs, value, ch));
          assert ch < n;
        } else {
          assert c == Ay.Opm(0x74 + (n - 1), ToneLevel(regs, value, n - 1));
        }
      }
    }
  }
}
