// The v0.888 AY8910-to-OPM transcoder. The envelope generator is the one of
// v0.884; new is the envelope used as a waveform: with a short envelope
// period (below 200) an envelope-mode channel sounds at full volume even with
// its tone off, takes its pitch from the envelope's cycle, and switching the
// envelope bit of its amplitude register keys the OPM channel on or off.

module V0888AyToOpm {
  import opened Bytes
  import opened ChipType
  import OpmPitch
  import Ay = V0087AyToOpm
  import E = V0884AyToOpm

  /** An envelope period below this makes an envelope-mode channel a waveform. */
  const WAVEFORM_PERIOD: nat := 200

  /** A channel whose amplitude register selects the envelope. */
  predicate EnvelopeMode(regs: seq<byte>, ch: nat)
    requires |regs| == 16 && ch < 3
  {
    (regs[8 + ch] / 16) % 2 == 1
  }

  /** The envelope acts as the channel's waveform: envelope mode with a short period. */
  predicate Waveform(regs: seq<byte>, e: E.Envelope, ch: nat)
    requires |regs| == 16 && ch < 3
  {
    EnvelopeMode(regs, ch) && e.period < WAVEFORM_PERIOD
  }

  /** The envelope steps in one cycle of the waveform of a shape: 32 for a sawtooth or single slope, 64 for a triangle, 0 for the one-shot shapes. */
  function WaveSteps(shape: nat): (steps: nat)
  {
    if shape in {8, 11, 12, 13} then 32
    else if shape in {10, 14} then 64
    else if shape in {9, 15} then 32
    else 0
  }

  /** The pitch source of a channel: the envelope cycle for a waveform of a repeating shape, else the tone period. */
  function PitchFreq(clock: u32, regs: seq<byte>, e: E.Envelope, ch: nat): (f: real)
    requires |regs| == 16 && E.EnvGood(e) && ch < 3
    ensures f >= 0.0
  {
    var steps := WaveSteps(e.shape);
    if Waveform(regs, e, ch) && steps > 0 then clock as real / (16 * e.period * steps) as real
    else Ay.ToneFreq(clock, Ay.TonePeriod(regs, ch))
  }

  /** `_recalculate_freq`: the key code and key fraction of OPM channel `4 + ch`. */
  function PitchOut(semitones: OpmPitch.Semitones, clockRatio: real, clock: u32, regs: seq<byte>, e: E.Envelope, ch: nat): (out: seq<Ay.OpmCall>)
    requires |regs| == 16 && E.EnvGood(e) && ch < 3
  {
    Ay.FreqOut(ch, E.ToneNote(semitones, PitchFreq(clock, regs, e, ch), clockRatio))
  }

  /** The pitch of all three channels, in order. */
  function PitchOutAll(semitones: OpmPitch.Semitones, clockRatio: real, clock: u32, regs: seq<byte>, e: E.Envelope): (out: seq<Ay.OpmCall>)
    requires |regs| == 16 && E.EnvGood(e)
  {
    PitchOut(semitones, clockRatio, clock, regs, e, 0) + PitchOut(semitones, clockRatio, clock, regs, e, 1) +
    PitchOut(semitones, clockRatio, clock, regs, e, 2)
  }

  /**
   * The carrier TL of a tone channel: heard when its tone is on or it is a
   * waveform, then at full volume as a waveform, at half the envelope level
   * in envelope mode, else at its own volume; otherwise 0x7F.
   */
  function ToneLevel(regs: seq<byte>, e: E.Envelope, ch: nat): (tl: byte)
    requires |regs| == 16 && E.EnvGood(e) && ch < 3
  {
    if Ay.ToneOn(regs, ch) || Waveform(regs, e, ch) then
      var v := regs[8 + ch];
      var tVol := if (v / 16) % 2 == 1 then (if Waveform(regs, e, ch) then 15 else e.value / 2) else v % 16;
      Min(127, Ay.VOL_TO_TL[tVol % 16])
    else 0x7F
  }

  /** `_updateTone`: the carrier TL of OPM channel `4 + ch`. */
  function ToneOut(regs: seq<byte>, e: E.Envelope, ch: nat): (out: seq<Ay.OpmCall>)
    requires |regs| == 16 && E.EnvGood(e) && ch < 3
  {
    [Ay.Opm(0x70 + Ay.OPM_CH_BASE + ch, ToneLevel(regs, e, ch))]
  }

  /** The TL updates of the envelope-mode channels among the first `n`, in channel order. */
  function EnvToneOut(regs: seq<byte>, e: E.Envelope, n: nat): (out: seq<Ay.OpmCall>)
    requires |regs| == 16 && E.EnvGood(e) && n <= 3
  {
    if n == 0 then []
    else EnvToneOut(regs, e, n - 1) + (if EnvelopeMode(regs, n - 1) then ToneOut(regs, e, n - 1) else [])
  }

  /** The key event of an amplitude write: with a short period, key-on of all operators when the envelope bit rises, key-off when it falls. */
  function KeyEvent(oldData: byte, data: byte, period: nat, ch: nat): (out: seq<Ay.OpmCall>)
    requires ch < 3
  {
    var oldEnv := (oldData / 16) % 2 == 1;
    var newEnv := (data / 16) % 2 == 1;
    if period < WAVEFORM_PERIOD then
      if newEnv && !oldEnv then [Ay.Opm(0x08, 0x78 + Ay.OPM_CH_BASE + ch)]
      else if !newEnv && oldEnv then [Ay.Opm(0x08, Ay.OPM_CH_BASE + ch)]
      else []
    else []
  }

  /** What a write to `addr` sends, given the shadow and the envelope after it and the register's previous value. */
  function WriteOut(semitones: OpmPitch.Semitones, clockRatio: real, clock: u32, regs: seq<byte>, e: E.Envelope, addr: nat, oldData: byte): (out: seq<Ay.OpmCall>)
    requires |regs| == 16 && E.EnvGood(e) && addr < 16
  {
    if addr <= 5 then PitchOut(semitones, clockRatio, clock, regs, e, addr / 2)
    else if 8 <= addr <= 10 then
      var ch := addr - 8;
      KeyEvent(oldData, regs[addr], e.period, ch) + ToneOut(regs, e, ch) +
      PitchOut(semitones, clockRatio, clock, regs, e, ch) + Ay.NoiseOut(regs)
    else if addr == 6 then Ay.NoiseOut(regs)
    else if addr == 7 then ToneOut(regs, e, 0) + ToneOut(regs, e, 1) + ToneOut(regs, e, 2) + Ay.NoiseOut(regs)
    else if 11 <= addr <= 13 then PitchOutAll(semitones, clockRatio, clock, regs, e)
    else []
  }

  class Converter {
    const semitones: OpmPitch.Semitones
    var regs: seq<byte>
    var clockRatio: real
    var sourceClock: u32
    var sourceChip: Chip
    var fdiv: nat
    /** Whether a write callback is installed. */
    var writer: bool
    var counter: nat
    var period: nat
    var shape: nat
    var segment: nat
    var value: int
    /** Every write made through the callback so far. */
    var calls: seq<Ay.OpmCall>

    function Env(): E.Envelope
      reads this
    {
      E.Envelope(counter, period, shape, segment, value)
    }

    predicate Valid()
      reads this
    {
      |regs| == 16 && clockRatio >= 0.0 && E.EnvGood(Env())
    }

    /** The statics before `ay_to_opm_init`: zeroed, no callback, the envelope at its start. */
    constructor (semitones: OpmPitch.Semitones)
      ensures Valid()
      ensures this.semitones == semitones && regs == Zeros(16) && !writer && Env() == E.ENV_START && calls == []
    {
      this.semitones := semitones;
      regs := Zeros(16);
      clockRatio := 0.0;
      sourceClock := 0;
      sourceChip := NoChip;
      fdiv := 0;
      writer := false;
      counter := 0;
      period := 1;
      shape := 0;
      segment := 0;
      value := 0;
      calls := [];
    }

    /**
     * `ay_to_opm_init`: records the source and the callback, sets the clock
     * ratio of the source clock to the OPM clock, clears the shadow, and
     * sets up the three tone channels and the noise operator. The envelope
     * is left as it was.
     */
    method Init(chip: Chip, clock: u32, opmClock: real, hasWriter: bool)
      requires Valid() && opmClock > 0.0
      modifies this`regs, this`clockRatio, this`sourceClock, this`sourceChip, this`fdiv, this`writer, this`calls
      ensures Valid()
      ensures sourceChip == chip && sourceClock == clock && clockRatio == clock as real / opmClock
      ensures fdiv == (if chip == AY8910 then 2 else 4) && writer == hasWriter
      ensures regs == Zeros(16)
      ensures calls == old(calls) + E.Emit(hasWriter, Ay.ToneSetups(3) + Ay.NOISE_SETUP)
    {
      hide Ay.ToneSetups, Ay.ToneSetup, E.Emit;
      sourceChip := chip;
      sourceClock := clock;
      writer := hasWriter;
      clockRatio := clock as real / opmClock;
      fdiv := if chip == AY8910 then 2 else 4;
      regs := Zeros(16);
      SetUpChannels();
    }

    /** The channel set-up of `ay_to_opm_init`: the three tone channels in turn, then the noise operator. */
    method SetUpChannels()
      modifies this`calls
      ensures calls == old(calls) + E.Emit(writer, Ay.ToneSetups(3) + Ay.NOISE_SETUP)
    {
      hide Ay.ToneSetup, E.Emit;
      var start := calls;
      var opmCh := Ay.OPM_CH_BASE;
      E.EmitAppend(writer, [], []);
      assert Ay.ToneSetups(0) == [];
      while opmCh < Ay.OPM_CH_BASE + 3
        invariant Ay.OPM_CH_BASE <= opmCh <= Ay.OPM_CH_BASE + 3
        invariant calls == start + E.Emit(writer, Ay.ToneSetups(opmCh - Ay.OPM_CH_BASE))
      {
        calls := calls + E.Emit(writer, Ay.ToneSetup(opmCh));
        E.EmitAppend(writer, Ay.ToneSetups(opmCh - Ay.OPM_CH_BASE), Ay.ToneSetup(opmCh));
        opmCh := opmCh + 1;
      }
      calls := calls + E.Emit(writer, Ay.NOISE_SETUP);
      E.EmitAppend(writer, Ay.ToneSetups(3), Ay.NOISE_SETUP);
    }

    method UpdateFreq(ch: nat, freq: real)
      requires ch < 3
      modifies this`calls
      ensures calls == old(calls) + E.Emit(writer, Ay.FreqOut(ch, E.ToneNote(semitones, freq, clockRatio)))
    {
      var n := E.ToneNote(semitones, freq, clockRatio);
      var opmCh := ch + Ay.OPM_CH_BASE;
      calls := calls + E.Emit(writer, [Ay.Opm(0x28 + opmCh, n.kc)]);
      calls := calls + E.Emit(writer, [Ay.Opm(0x30 + opmCh, n.kf * 4)]);
    }

    method UpdateNoise()
      requires |regs| == 16
      modifies this`calls
      ensures calls == old(calls) + E.Emit(writer, Ay.NoiseOut(regs))
    {
      var nVol := 0;
      var i := 0;
      while i < 3
        invariant 0 <= i <= 3 && nVol == Ay.NoiseVol(regs, i)
      {
        if (regs[7] / Ay.Pow2(i + 3)) % 2 == 0 {
          nVol := Max(nVol, regs[8 + i] % 16);
        }
        i := i + 1;
      }
      var nfreq := regs[6] % 32;
      calls := calls + E.Emit(writer, [Ay.Opm(0x0F, 0x80 + (0x1F - nfreq))]);
      calls := calls + E.Emit(writer, [Ay.Opm(0x7F, Min(127, Ay.N_VOL_TO_TL[nVol]))]);
    }

    method UpdateTone(ch: nat)
      requires Valid() && ch < 3
      modifies this`calls
      ensures calls == old(calls) + E.Emit(writer, ToneOut(regs, Env(), ch))
    {
      var v := regs[8 + ch];
      var toneEnabled := (regs[7] / Ay.Pow2(ch)) % 2 == 0;
      var envelopeAsWaveform := (v / 16) % 2 == 1 && period < WAVEFORM_PERIOD;
      var opmCh := ch + Ay.OPM_CH_BASE;
      if toneEnabled || envelopeAsWaveform {
        var tVol;
        if (v / 16) % 2 == 1 {
          if envelopeAsWaveform {
            tVol := 15;
          } else {
            tVol := value / 2;
          }
        } else {
          tVol := v % 16;
        }
        calls := calls + E.Emit(writer, [Ay.Opm(0x70 + opmCh, Min(127, Ay.VOL_TO_TL[tVol % 16]))]);
      } else {
        calls := calls + E.Emit(writer, [Ay.Opm(0x70 + opmCh, 0x7F)]);
      }
    }

    /** `_recalculate_freq`: the envelope cycle's pitch for a waveform of a repeating shape, else the tone period's. */
    method RecalculateFreq(ch: nat)
      requires Valid() && ch < 3
      modifies this`calls
      ensures calls == old(calls) + E.Emit(writer, PitchOut(semitones, clockRatio, sourceClock, regs, Env(), ch))
    {
      hide Ay.FreqOut, E.ToneNote;
      var v := regs[8 + ch];
      if (v / 16) % 2 == 1 && period < WAVEFORM_PERIOD {
        var steps := WaveSteps(shape);
        if steps > 0 {
          var freq := sourceClock as real / (16 * period * steps) as real;
          UpdateFreq(ch, freq);
          return;
        }
      }
      var tp: nat := (regs[ch * 2 + 1] as int % 16) * 256 + regs[ch * 2] as int;
      if tp == 0 {
        UpdateFreq(ch, 0.0);
      } else {
        var freq := sourceClock as real / (16 * tp) as real;
        UpdateFreq(ch, freq);
      }
    }

    /** The pitch of the three channels in turn. */
    method RecalculateAll()
      requires Valid()
      modifies this`calls
      ensures calls == old(calls) + E.Emit(writer, PitchOutAll(semitones, clockRatio, sourceClock, regs, Env()))
    {
      hide PitchOut, E.Emit;
      RecalculateFreq(0);
      RecalculateFreq(1);
      RecalculateFreq(2);
      E.EmitAppend(writer, PitchOut(semitones, clockRatio, sourceClock, regs, Env(), 0), PitchOut(semitones, clockRatio, sourceClock, regs, Env(), 1));
      E.EmitAppend(writer, PitchOut(semitones, clockRatio, sourceClock, regs, Env(), 0) + PitchOut(semitones, clockRatio, sourceClock, regs, Env(), 1),
        PitchOut(semitones, clockRatio, sourceClock, regs, Env(), 2));
    }

    /** `_reset_envelope_segment`: the level jumps to the start of the current segment. */
    method ResetSegment()
      requires shape < 16 && segment < 2
      modifies this`value
      ensures value == E.SegmentStart(shape, segment)
    {
      var proc := E.SegmentProc(shape, segment);
      if proc == E.SlideDown || proc == E.HoldTop {
        value := 31;
      } else {
        value := 0;
      }
    }

    /**
     * `ay_to_opm_update_envelope`: one tick of the envelope; when the step
     * falls due, the envelope-mode channels get their new TL.
     */
    method UpdateEnvelope()
      requires Valid()
      modifies this`counter, this`segment, this`value, this`calls
      ensures Valid()
      ensures Env() == E.EnvStep(old(Env()))
      ensures calls == old(calls) + (if E.Wraps(old(Env())) then E.Emit(writer, EnvToneOut(regs, Env(), 3)) else [])
    {
      counter := counter + 1;
      if counter >= period {
        counter := 0;
        match E.SegmentProc(shape, segment) {
          case SlideUp =>
            value := value + 1;
            if value > 31 {
              segment := 1 - segment;
              ResetSegment();
            }
          case SlideDown =>
            value := value - 1;
            if value < 0 {
              segment := 1 - segment;
              ResetSegment();
            }
          case _ =>
        }
        UpdateEnvelopeTones();
      }
    }

    /** The loop of `ay_to_opm_update_envelope` over the channels in envelope mode. */
    method UpdateEnvelopeTones()
      requires Valid()
      modifies this`calls
      ensures calls == old(calls) + E.Emit(writer, EnvToneOut(regs, Env(), 3))
    {
      hide ToneOut, E.Emit;
      var start := calls;
      var i := 0;
      E.EmitAppend(writer, [], []);
      while i < 3
        invariant 0 <= i <= 3
        invariant calls == start + E.Emit(writer, EnvToneOut(regs, Env(), i))
      {
        if (regs[8 + i] / 16) % 2 == 1 {
          UpdateTone(i);
        }
        E.EmitAppend(writer, EnvToneOut(regs, Env(), i), if EnvelopeMode(regs, i) then ToneOut(regs, Env(), i) else []);
        i := i + 1;
      }
    }

    /**
     * `ay_to_opm_write_reg`: a register above 15 is ignored outright;
     * otherwise the shadow takes the write, the envelope registers set the
     * period or restart the envelope, and the key events, pitch, levels or
     * noise the write affects are sent.
     */
    method WriteReg(addr: byte, data: byte)
      requires Valid()
      modifies this`regs, this`calls, this`counter, this`period, this`shape, this`segment, this`value
      ensures Valid()
      ensures addr > 15 ==> regs == old(regs) && Env() == old(Env()) && calls == old(calls)
      ensures addr <= 15 ==>
        regs == old(regs)[addr := data] &&
        Env() == E.EnvWrite(old(Env()), regs, addr, data) &&
        calls == old(calls) + E.Emit(writer, WriteOut(semitones, clockRatio, sourceClock, regs, Env(), addr, old(regs)[addr]))
    {
      if addr > 15 {
        return;
      }
      var oldData := regs[addr];
      regs := regs[addr := data];
      if addr <= 5 {
        RecalculateFreq(addr / 2);
      } else if 8 <= addr <= 10 {
        WriteAmplitude(addr - 8, oldData);
      } else if addr <= 7 {
        WriteNoiseMixer(addr);
      } else {
        WriteEnvelope(addr, data);
      }
    }

    /** An amplitude write: the key event of a short-period envelope bit change, then the channel's TL, its pitch and the noise. */
    method WriteAmplitude(ch: nat, oldData: byte)
      requires Valid() && ch < 3
      modifies this`calls
      ensures calls == old(calls) + E.Emit(writer, WriteOut(semitones, clockRatio, sourceClock, regs, Env(), 8 + ch, oldData))
    {
      hide ToneOut, PitchOut, Ay.NoiseOut, E.Emit, KeyEvent;
      var key := KeyEvent(oldData, regs[8 + ch], period, ch);
      var tone := ToneOut(regs, Env(), ch);
      var pitch := PitchOut(semitones, clockRatio, sourceClock, regs, Env(), ch);
      AmplitudeOut(semitones, clockRatio, sourceClock, regs, Env(), ch, oldData);
      SendKeyEvent(ch, oldData);
      UpdateTone(ch);
      RecalculateFreq(ch);
      UpdateNoise();
      E.EmitAppend(writer, key, tone);
      E.EmitAppend(writer, key + tone, pitch);
      E.EmitAppend(writer, key + tone + pitch, Ay.NoiseOut(regs));
    }

    /** The key-on or key-off of a short-period envelope bit change. */
    method SendKeyEvent(ch: nat, oldData: byte)
      requires Valid() && ch < 3
      modifies this`calls
      ensures calls == old(calls) + E.Emit(writer, KeyEvent(oldData, regs[8 + ch], period, ch))
    {
      var opmCh := ch + Ay.OPM_CH_BASE;
      var data := regs[8 + ch];
      if period < WAVEFORM_PERIOD {
        var oldEnv := (oldData / 16) % 2 == 1;
        var newEnv := (data / 16) % 2 == 1;
        if newEnv && !oldEnv {
          calls := calls + E.Emit(writer, [Ay.Opm(0x08, 0x78 + opmCh)]);
        } else if !newEnv && oldEnv {
          calls := calls + E.Emit(writer, [Ay.Opm(0x08, opmCh)]);
        }
      }
    }

    /** A noise-period write sends the noise; a mixer write the three TLs and the noise, and no key event. */
    method WriteNoiseMixer(addr: nat)
      requires Valid() && 6 <= addr <= 7
      modifies this`calls
      ensures calls == old(calls) + E.Emit(writer, WriteOut(semitones, clockRatio, sourceClock, regs, Env(), addr, 0))
    {
      hide Ay.NoiseOut, ToneOut;
      if addr == 6 {
        UpdateNoise();
      } else {
        UpdateTone(0);
        UpdateTone(1);
        UpdateTone(2);
        UpdateNoise();
      }
    }

    /** The envelope registers: 11 and 12 set the period (never below 1), 13 restarts the envelope; both resend the three pitches. */
    method WriteEnvelope(addr: nat, data: byte)
      requires Valid() && 11 <= addr <= 15
      modifies this`counter, this`period, this`shape, this`segment, this`value, this`calls
      ensures Valid()
      ensures Env() == E.EnvWrite(old(Env()), regs, addr, data)
      ensures calls == old(calls) + E.Emit(writer, WriteOut(semitones, clockRatio, sourceClock, regs, Env(), addr, 0))
    {
      if addr == 11 || addr == 12 {
        period := regs[12] as int * 256 + regs[11] as int;
        if period == 0 {
          period := 1;
        }
        RecalculateAll();
      } else if addr == 13 {
        shape := data % 16;
        counter := 0;
        segment := 0;
        ResetSegment();
        RecalculateAll();
      }
    }
  }

  /** The writes of an amplitude write, in order: the key event, the TL, the pitch and the noise. */
  lemma AmplitudeOut(semitones: OpmPitch.Semitones, clockRatio: real, clock: u32, regs: seq<byte>, e: E.Envelope, ch: nat, oldData: byte)
    requires |regs| == 16 && E.EnvGood(e) && ch < 3
    ensures WriteOut(semitones, clockRatio, clock, regs, e, 8 + ch, oldData) ==
      KeyEvent(oldData, regs[8 + ch], e.period, ch) + ToneOut(regs, e, ch) + PitchOut(semitones, clockRatio, clock, regs, e, ch) + Ay.NoiseOut(regs)
  {
  }

  /** With a short period, an amplitude write keys the channel on exactly when the envelope bit rises and off exactly when it falls; with a long period it sends no key event. */
  lemma KeyEventRules(oldData: byte, data: byte, period: nat, ch: nat)
    requires ch < 3
    ensures var oldEnv := (oldData / 16) % 2 == 1;
      var newEnv := (data / 16) % 2 == 1;
      (KeyEvent(oldData, data, period, ch) == [Ay.Opm(0x08, 0x7C + ch)] <==> period < WAVEFORM_PERIOD && newEnv && !oldEnv) &&
      (KeyEvent(oldData, data, period, ch) == [Ay.Opm(0x08, 4 + ch)] <==> period < WAVEFORM_PERIOD && !newEnv && oldEnv) &&
      (KeyEvent(oldData, data, period, ch) == [] <==> period >= WAVEFORM_PERIOD || newEnv == oldEnv)
  {
  }

  /** Noise-period and mixer writes never key a channel on or off. */
  lemma MixerSendsNoKeyEvent(semitones: OpmPitch.Semitones, clockRatio: real, clock: u32, regs: seq<byte>, e: E.Envelope, addr: nat, oldData: byte)
    requires |regs| == 16 && E.EnvGood(e) && (addr == 6 || addr == 7)
    ensures forall c :: c in WriteOut(semitones, clockRatio, clock, regs, e, addr, oldData) ==> c.Opm? && c.addr != 0x08
  {
  }

  /**
   * The waveform step count against the shape table: 0 exactly for the
   * shapes without the continue bit, 64 exactly for the two triangles whose
   * second segment slides back, and 32 for the rest, including the four
   * shapes that hold after their first slope.
   */
  lemma WaveStepsFollowShapeTable(shape: nat)
    requires shape < 16
    ensures WaveSteps(shape) == 0 <==> shape < 8
    ensures WaveSteps(shape) == 64 <==>
      E.SegmentProc(shape, 1) in {E.SlideUp, E.SlideDown} && E.SegmentProc(shape, 1) != E.SegmentProc(shape, 0)
    ensures WaveSteps(shape) == 32 <==> shape >= 8 && WaveSteps(shape) != 64
    ensures shape in {9, 11, 13, 15} ==> WaveSteps(shape) == 32 && E.SegmentProc(shape, 1) in {E.HoldBottom, E.HoldTop}
  {
  }

  /** A waveform of a repeating shape sounds one envelope cycle as its period; any other channel the tone period. */
  lemma EnvelopePitch(clock: u32, regs: seq<byte>, e: E.Envelope, ch: nat)
    requires |regs| == 16 && E.EnvGood(e) && ch < 3
    ensures Waveform(regs, e, ch) && WaveSteps(e.shape) > 0 ==>
      PitchFreq(clock, regs, e, ch) * (16 * e.period * WaveSteps(e.shape)) as real == clock as real
    ensures !Waveform(regs, e, ch) || WaveSteps(e.shape) == 0 ==>
      PitchFreq(clock, regs, e, ch) == Ay.ToneFreq(clock, Ay.TonePeriod(regs, ch))
  {
  }

  /** A channel playing its tone period sends key code and key fraction 0 when that period is 0. */
  lemma ZeroPeriodSilentPitch(semitones: OpmPitch.Semitones, clockRatio: real, clock: u32, regs: seq<byte>, e: E.Envelope, ch: nat)
    requires |regs| == 16 && E.EnvGood(e) && ch < 3 && clockRatio >= 0.0
    requires !Waveform(regs, e, ch) || WaveSteps(e.shape) == 0
    requires Ay.TonePeriod(regs, ch) == 0
    ensures PitchOut(semitones, clockRatio, clock, regs, e, ch) == [Ay.Opm(0x2C + ch, 0), Ay.Opm(0x34 + ch, 0)]
  {
  }

  /** A waveform channel sounds at full volume (TL 0), whatever the mixer says; a channel with its tone off that is no waveform is muted. */
  lemma WaveformFullVolume(regs: seq<byte>, e: E.Envelope, ch: nat)
    requires |regs| == 16 && E.EnvGood(e) && ch < 3
    ensures Waveform(regs, e, ch) ==> ToneLevel(regs, e, ch) == 0
    ensures !Ay.ToneOn(regs, ch) && !Waveform(regs, e, ch) ==> ToneLevel(regs, e, ch) == 0x7F
  {
  }

  /** With a period of 200 or more the levels are those of v0.884. */
  lemma LongPeriodLevelsAsBefore(regs: seq<byte>, e: E.Envelope, ch: nat)
    requires |regs| == 16 && E.EnvGood(e) && ch < 3 && e.period >= WAVEFORM_PERIOD
    ensures ToneLevel(regs, e, ch) == E.ToneLevel(regs, e.value, ch)
  {
  }
}
