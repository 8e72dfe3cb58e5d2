// The v0.911 AY8910-to-OPM transcoder. It keeps the v0.888 waveform rules and
// adds stereo: each AY channel is panned by a stereo mode and the noise takes
// the union of the pans of the channels that use it. Key events move from
// the envelope bit to the mixer's tone bits, and a new note on a channel
// using a one-shot envelope restarts the envelope.

module V0911AyToOpm {
  import opened Bytes
  import opened ChipType
  import OpmPitch
  import Ay = V0087AyToOpm
  import E = V0884AyToOpm
  import W = V0888AyToOpm

  const PAN_LEFT: byte := 0x40
  const PAN_RIGHT: byte := 0x80
  const PAN_CENTER: byte := 0xC0

  /** The stereo modes, in the order of their enumeration; any other value behaves as mono. */
  const STEREO_ABC: int := 0
  const STEREO_ACB: int := 1
  const STEREO_BAC: int := 2
  const STEREO_MONO: int := 3
  const STEREO_MODE_COUNT: int := 4

  /** `ay_to_opm_get_stereo_mode_name`: the name of a mode, or "Invalid" outside the enumeration. */
  function ModeName(mode: int): (name: string)
    ensures name == "Invalid" <==> !(0 <= mode < STEREO_MODE_COUNT)
  {
    if mode == STEREO_ABC then "ABC"
    else if mode == STEREO_ACB then "ACB"
    else if mode == STEREO_BAC then "BAC"
    else if mode == STEREO_MONO then "Mono"
    else "Invalid"
  }

  /** The pans of AY channels A, B and C in a stereo mode. */
  function PanMap(mode: int): (pans: seq<byte>)
    ensures |pans| == 3 && forall i :: 0 <= i < 3 ==> pans[i] in {PAN_LEFT, PAN_CENTER, PAN_RIGHT}
  {
    if mode == STEREO_ABC then [PAN_LEFT, PAN_CENTER, PAN_RIGHT]
    else if mode == STEREO_ACB then [PAN_LEFT, PAN_RIGHT, PAN_CENTER]
    else if mode == STEREO_BAC then [PAN_CENTER, PAN_LEFT, PAN_RIGHT]
    else [PAN_CENTER, PAN_CENTER, PAN_CENTER]
  }

  /** The connection register of an OPM channel: the pan's two RL bits over FB=7, CON=4. */
  function PanValue(pan: byte): (v: byte)
  {
    (pan / 64) * 64 + 0x3C
  }

  /** The left pan and the centre carry the left RL bit, the right pan and the centre the right one. */
  lemma PanSides(pan: byte)
    requires pan in {PAN_LEFT, PAN_CENTER, PAN_RIGHT}
    ensures (pan / 64) % 2 == 1 <==> pan == PAN_LEFT || pan == PAN_CENTER
    ensures (pan / 128) % 2 == 1 <==> pan == PAN_RIGHT || pan == PAN_CENTER
  {
  }

  /** The pan writes of `ay_to_opm_set_stereo_mode` for OPM channels 4, 5 and 6. */
  function PanOut(mode: int): (out: seq<Ay.OpmCall>)
  {
    var pans := PanMap(mode);
    [Ay.Opm(0x24, PanValue(pans[0])), Ay.Opm(0x25, PanValue(pans[1])), Ay.Opm(0x26, PanValue(pans[2]))]
  }

  /** Some of the first `n` channels with noise on is panned with the given RL bit (64 for left, 128 for right). */
  predicate NoiseSide(regs: seq<byte>, pans: seq<byte>, bit: nat, n: nat)
    requires |regs| == 16 && |pans| == 3 && n <= 3 && (bit == 64 || bit == 128)
  {
    n > 0 && (NoiseSide(regs, pans, bit, n - 1) || (Ay.NoiseOn(regs, n - 1) && (pans[n - 1] / bit) % 2 == 1))
  }

  /** The noise's pan: centre when both sides are used or neither is, else the one side used. */
  function NoisePan(regs: seq<byte>, mode: int): (pan: byte)
    requires |regs| == 16
  {
    var pans := PanMap(mode);
    var left := NoiseSide(regs, pans, 64, 3);
    var right := NoiseSide(regs, pans, 128, 3);
    if left && right then PAN_CENTER
    else if left then PAN_LEFT
    else if right then PAN_RIGHT
    else PAN_CENTER
  }

  /** `_updateNoise`: the noise frequency, the noise channel's pan, and the noise operator's TL. */
  function NoiseOut(regs: seq<byte>, mode: int): (out: seq<Ay.OpmCall>)
    requires |regs| == 16
  {
    [Ay.Opm(0x0F, 0x80 + (0x1F - regs[6] % 32)), Ay.Opm(0x27, PanValue(NoisePan(regs, mode))),
     Ay.Opm(0x7F, Min(127, Ay.N_VOL_TO_TL[Ay.NoiseVol(regs, 3)]))]
  }

  /** The voice set-up of one tone channel, its connection now left to the pan. */
  function ToneSetup(opmCh: nat): (out: seq<Ay.OpmCall>)
    requires 4 <= opmCh < 7
    ensures |out| == 13
  {
    [Ay.Opm(0x40 + opmCh, 0x02), Ay.Opm(0x50 + opmCh, 0x01), Ay.Opm(0x60 + opmCh, 0x1B),
     Ay.Opm(0x70 + opmCh, 0x7F), Ay.Opm(0x80 + opmCh, 0x1F), Ay.Opm(0x90 + opmCh, 0x1F), Ay.Opm(0xA0 + opmCh, 0),
     Ay.Opm(0xB0 + opmCh, 0), Ay.Opm(0xC0 + opmCh, 0), Ay.Opm(0xD0 + opmCh, 0), Ay.Opm(0xE0 + opmCh, 0),
     Ay.Opm(0xF0 + opmCh, 0), Ay.Opm(0x08, 0x78 + opmCh)]
  }

  function ToneSetups(n: nat): (out: seq<Ay.OpmCall>)
    requires n <= 3
    ensures |out| == 13 * n
  {
    if n == 0 then [] else ToneSetups(n - 1) + ToneSetup(Ay.OPM_CH_BASE + n - 1)
  }

  /** A shape that does not repeat: everything but 8, 10, 12 and 14. */
  predicate OneShot(shape: nat)
  {
    !(shape == 8 || shape == 10 || shape == 12 || shape == 14)
  }

  /** The envelope restarted from its first segment. */
  function Restart(e: E.Envelope): (r: E.Envelope)
    requires E.EnvGood(e)
    ensures E.EnvGood(r) && r.period == e.period && r.shape == e.shape
  {
    e.(counter := 0, segment := 0, value := E.SegmentStart(e.shape, 0))
  }

  /** A new note on channel `ch` restarts a one-shot envelope the channel uses. */
  function Retrigger(regs: seq<byte>, e: E.Envelope, ch: nat): (r: E.Envelope)
    requires |regs| == 16 && E.EnvGood(e) && ch < 3
    ensures E.EnvGood(r) && r.period == e.period && r.shape == e.shape
  {
    if W.EnvelopeMode(regs, ch) && OneShot(e.shape) then Restart(e) else e
  }

  /** The envelope after an operation, and what it sent. */
  datatype Step = Step(env: E.Envelope, out: seq<Ay.OpmCall>)

  /** A tone-period write to channel `ch`: its pitch and TL, then the retrigger. */
  function PeriodStep(semitones: OpmPitch.Semitones, clockRatio: real, clock: u32, regs: seq<byte>, e: E.Envelope, ch: nat): (r: Step)
    requires |regs| == 16 && E.EnvGood(e) && ch < 3
    ensures E.EnvGood(r.env) && r.env.period == e.period && r.env.shape == e.shape
  {
    Step(Retrigger(regs, e, ch), W.PitchOut(semitones, clockRatio, clock, regs, e, ch) + W.ToneOut(regs, e, ch))
  }

  /** The tone bit of channel `i` in a mixer value is clear: the tone is on. */
  predicate MixerToneOn(mixer: byte, i: nat)
  {
    (mixer / Ay.Pow2(i)) % 2 == 0
  }

  /** The mixer's step for channel `i`: key-on (with pitch, TL and retrigger) when its tone turns on, key-off when it turns off. */
  function KeyStep(semitones: OpmPitch.Semitones, clockRatio: real, clock: u32, regs: seq<byte>, e: E.Envelope, oldData: byte, i: nat): (r: Step)
    requires |regs| == 16 && E.EnvGood(e) && i < 3
    ensures E.EnvGood(r.env) && r.env.period == e.period && r.env.shape == e.shape
  {
    var oldOn := MixerToneOn(oldData, i);
    var newOn := MixerToneOn(regs[7], i);
    if newOn && !oldOn then
      Step(Retrigger(regs, e, i),
           W.PitchOut(semitones, clockRatio, clock, regs, e, i) + W.ToneOut(regs, e, i) + [Ay.Opm(0x08, 0x78 + Ay.OPM_CH_BASE + i)])
    else if !newOn && oldOn then Step(e, [Ay.Opm(0x08, Ay.OPM_CH_BASE + i)])
    else Step(e, [])
  }

  /** The mixer's steps for channels 0 to `n - 1`, in order. */
  function KeySteps(semitones: OpmPitch.Semitones, clockRatio: real, clock: u32, regs: seq<byte>, e: E.Envelope, oldData: byte, n: nat): (r: Step)
    requires |regs| == 16 && E.EnvGood(e) && n <= 3
    ensures E.EnvGood(r.env) && r.env.period == e.period && r.env.shape == e.shape
  {
    if n == 0 then Step(e, [])
    else
      var p := KeySteps(semitones, clockRatio, clock, regs, e, oldData, n - 1);
      var k := KeyStep(semitones, clockRatio, clock, regs, p.env, oldData, n - 1);
      Step(k.env, p.out + k.out)
  }

  /** One more channel of `KeySteps`, and none at all. */
  lemma KeyStepsStep(semitones: OpmPitch.Semitones, clockRatio: real, clock: u32, regs: seq<byte>, e: E.Envelope, oldData: byte, n: nat)
    requires |regs| == 16 && E.EnvGood(e) && n < 3
    ensures KeySteps(semitones, clockRatio, clock, regs, e, oldData, 0) == Step(e, [])
    ensures var p := KeySteps(semitones, clockRatio, clock, regs, e, oldData, n);
      var k := KeyStep(semitones, clockRatio, clock, regs, p.env, oldData, n);
      KeySteps(semitones, clockRatio, clock, regs, e, oldData, n + 1) == Step(k.env, p.out + k.out)
  {
  }

  /** What follows the key events of a mixer write: the three TLs and the noise. */
  function MixerTail(regs: seq<byte>, e: E.Envelope, mode: int): (out: seq<Ay.OpmCall>)
    requires |regs| == 16 && E.EnvGood(e)
  {
    W.ToneOut(regs, e, 0) + W.ToneOut(regs, e, 1) + W.ToneOut(regs, e, 2) + NoiseOut(regs, mode)
  }

  /** A whole mixer write. */
  function MixerStep(semitones: OpmPitch.Semitones, clockRatio: real, clock: u32, regs: seq<byte>, e: E.Envelope, oldData: byte, mode: int): (r: Step)
    requires |regs| == 16 && E.EnvGood(e)
  {
    var k := KeySteps(semitones, clockRatio, clock, regs, e, oldData, 3);
    Step(k.env, k.out + MixerTail(regs, k.env, mode))
  }

  /** The envelope and the writes of a write of `data` to `addr < 16`, given the shadow after it and the register's previous value. */
  function WriteStep(semitones: OpmPitch.Semitones, clockRatio: real, clock: u32, regs: seq<byte>, e: E.Envelope, mode: int, addr: nat, oldData: byte, data: byte): (r: Step)
    requires |regs| == 16 && E.EnvGood(e) && addr < 16
  {
    if addr <= 5 then PeriodStep(semitones, clockRatio, clock, regs, e, addr / 2)
    else if 8 <= addr <= 10 then
      var ch := addr - 8;
      Step(e, W.ToneOut(regs, e, ch) + W.PitchOut(semitones, clockRatio, clock, regs, e, ch) + NoiseOut(regs, mode))
    else if addr == 6 then Step(e, NoiseOut(regs, mode))
    else if addr == 7 then MixerStep(semitones, clockRatio, clock, regs, e, oldData, mode)
    else if 11 <= addr <= 13 then
      var e2 := E.EnvWrite(e, regs, addr, data);
      Step(e2, W.PitchOutAll(semitones, clockRatio, clock, regs, e2))
    else Step(e, [])
  }

  class Converter {
    const semitones: OpmPitch.Semitones
    var regs: seq<byte>
    var clockRatio: real
    var sourceClock: u32
    var sourceChip: Chip
    var fdiv: nat
    /** Whether a write callback is installed. */
    var writer: bool
    var mode: int
    var counter: nat
    var period: nat
    var shape: nat
    var segment: nat
    var value: int
    /** Every write made through the callback so far. */
    var calls: seq<Ay.OpmCall>

    function Env(): E.Envelope
      reads this
    {
      E.Envelope(counter, period, shape, segment, value)
    }

    predicate Valid()
      reads this
    {
      |regs| == 16 && clockRatio >= 0.0 && E.EnvGood(Env())
    }

    /** The statics before `ay_to_opm_init`: zeroed, no callback, stereo ABC, the envelope at its start. */
    constructor (semitones: OpmPitch.Semitones)
      ensures Valid()
      ensures this.semitones == semitones && regs == Zeros(16) && !writer && mode == STEREO_ABC
      ensures Env() == E.ENV_START && calls == []
    {
      this.semitones := semitones;
      regs := Zeros(16);
      clockRatio := 0.0;
      sourceClock := 0;
      sourceChip := NoChip;
      fdiv := 0;
      writer := false;
      mode := STEREO_ABC;
      counter := 0;
      period := 1;
      shape := 0;
      segment := 0;
      value := 0;
      calls := [];
    }

    /**
     * `ay_to_opm_init`: records the source and the callback, sets the clock
     * ratio, clears the shadow, applies the current stereo mode, and sets up
     * the three tone channels and the noise operator. The envelope and the
     * stereo mode are left as they were.
     */
    method Init(chip: Chip, clock: u32, opmClock: real, hasWriter: bool)
      requires Valid() && opmClock > 0.0
      modifies this`regs, this`clockRatio, this`sourceClock, this`sourceChip, this`fdiv, this`writer, this`mode, this`calls
      ensures Valid() && mode == old(mode)
      ensures sourceChip == chip && sourceClock == clock && clockRatio == clock as real / opmClock
      ensures fdiv == (if chip == AY8910 then 2 else 4) && writer == hasWriter
      ensures regs == Zeros(16)
      ensures calls == old(calls) + E.Emit(hasWriter, PanOut(mode) + NoiseOut(Zeros(16), mode)) +
        E.Emit(hasWriter, ToneSetups(3) + Ay.NOISE_SETUP)
    {
      hide ToneSetups, ToneSetup, E.Emit, PanOut, NoiseOut;
      sourceChip := chip;
      sourceClock := clock;
      writer := hasWriter;
      clockRatio := clock as real / opmClock;
      fdiv := if chip == AY8910 then 2 else 4;
      regs := Zeros(16);
      SetStereoMode(mode);
      SetUpChannels();
    }

    /** The voice set-up of `ay_to_opm_init`: the three tone channels in turn, then the noise operator. */
    method SetUpChannels()
      modifies this`calls
      ensures calls == old(calls) + E.Emit(writer, ToneSetups(3) + Ay.NOISE_SETUP)
    {
      hide ToneSetup, E.Emit;
      var start := calls;
      var i := 0;
      E.EmitAppend(writer, [], []);
      assert ToneSetups(0) == [];
      while i < 3
        invariant 0 <= i <= 3
        invariant calls == start + E.Emit(writer, ToneSetups(i))
      {
        calls := calls + E.Emit(writer, ToneSetup(i + Ay.OPM_CH_BASE));
        E.EmitAppend(writer, ToneSetups(i), ToneSetup(i + Ay.OPM_CH_BASE));
        i := i + 1;
      }
      calls := calls + E.Emit(writer, Ay.NOISE_SETUP);
      E.EmitAppend(writer, ToneSetups(3), Ay.NOISE_SETUP);
    }

    /** `ay_to_opm_set_stereo_mode`: records the mode and, with a callback installed, pans the three tone channels and updates the noise. */
    method SetStereoMode(m: int)
      requires |regs| == 16
      modifies this`mode, this`calls
      ensures mode == m
      ensures calls == old(calls) + E.Emit(writer, PanOut(m) + NoiseOut(regs, m))
    {
      mode := m;
      if !writer {
        return;
      }
      var pans := PanMap(m);
      var start := calls;
      var i := 0;
      while i < 3
        invariant 0 <= i <= 3 && mode == m
        invariant calls == start + PanOut(m)[..i]
      {
        calls := calls + [Ay.Opm(0x20 + (i + Ay.OPM_CH_BASE), (pans[i] / 64) * 64 + 0x3C)];
        i := i + 1;
      }
      assert PanOut(m)[..3] == PanOut(m);
      UpdateNoise();
    }

    method UpdateFreq(ch: nat, freq: real)
      requires ch < 3
      modifies this`calls
      ensures calls == old(calls) + E.Emit(writer, Ay.FreqOut(ch, E.ToneNote(semitones, freq, clockRatio)))
    {
      var n := E.ToneNote(semitones, freq, clockRatio);
      var opmCh := ch + Ay.OPM_CH_BASE;
      calls := calls + E.Emit(writer, [Ay.Opm(0x28 + opmCh, n.kc)]);
      calls := calls + E.Emit(writer, [Ay.Opm(0x30 + opmCh, n.kf * 4)]);
    }

    /** `_updateNoise`: the loudest noise volume and the sides of the noise channels, gathered in one pass. */
    method UpdateNoise()
      requires |regs| == 16
      modifies this`calls
      ensures calls == old(calls) + E.Emit(writer, NoiseOut(regs, mode))
    {
      var nVol, left, right := ScanNoise();
      var finalPan: byte;
      if left && right {
        finalPan := PAN_CENTER;
      } else if left {
        finalPan := PAN_LEFT;
      } else if right {
        finalPan := PAN_RIGHT;
      } else {
        finalPan := PAN_CENTER;
      }
      var nfreq := regs[6] % 32;
      calls := calls + E.Emit(writer, [Ay.Opm(0x0F, 0x80 + (0x1F - nfreq))]);
      calls := calls + E.Emit(writer, [Ay.Opm(0x27, (finalPan / 64) * 64 + 0x3C)]);
      calls := calls + E.Emit(writer, [Ay.Opm(0x7F, Min(127, Ay.N_VOL_TO_TL[nVol]))]);
    }

    /** The loop of `_updateNoise`: over the channels with noise on, the loudest volume and whether any sounds left or right. */
    method ScanNoise() returns (nVol: nat, left: bool, right: bool)
      requires |regs| == 16
      ensures nVol == Ay.NoiseVol(regs, 3) && nVol < 16
      ensures left == NoiseSide(regs, PanMap(mode), 64, 3) && right == NoiseSide(regs, PanMap(mode), 128, 3)
    {
      var pans := PanMap(mode);
      nVol := 0;
      left := false;
      right := false;
      var i := 0;
      while i < 3
        invariant 0 <= i <= 3 && nVol == Ay.NoiseVol(regs, i)
        invariant left == NoiseSide(regs, pans, 64, i) && right == NoiseSide(regs, pans, 128, i)
      {
        if (regs[7] / Ay.Pow2(i + 3)) % 2 == 0 {
          nVol := Max(nVol, regs[8 + i] % 16);
          var pan := pans[i];
          PanSides(pan);
          if pan == PAN_LEFT || pan == PAN_CENTER {
            left := true;
          }
          if pan == PAN_RIGHT || pan == PAN_CENTER {
            right := true;
          }
        }
        i := i + 1;
      }
    }

    method UpdateTone(ch: nat)
      requires Valid() && ch < 3
      modifies this`calls
      ensures calls == old(calls) + E.Emit(writer, W.ToneOut(regs, Env(), ch))
    {
      var v := regs[8 + ch];
      var toneEnabled := (regs[7] / Ay.Pow2(ch)) % 2 == 0;
      var envelopeAsWaveform := (v / 16) % 2 == 1 && period < W.WAVEFORM_PERIOD;
      var opmCh := ch + Ay.OPM_CH_BASE;
      if toneEnabled || envelopeAsWaveform {
        var tVol;
        if (v / 16) % 2 == 1 {
          if envelopeAsWaveform {
            tVol := 15;
          } else {
            tVol := value / 2;
          }
        } else {
          tVol := v % 16;
        }
        calls := calls + E.Emit(writer, [Ay.Opm(0x70 + opmCh, Min(127, Ay.VOL_TO_TL[tVol % 16]))]);
      } else {
        calls := calls + E.Emit(writer, [Ay.Opm(0x70 + opmCh, 0x7F)]);
      }
    }

    /** `_recalculate_freq`: the envelope cycle's pitch for a waveform of a repeating shape, else the tone period's. */
    method RecalculateFreq(ch: nat)
      requires Valid() && ch < 3
      modifies this`calls
      ensures calls == old(calls) + E.Emit(writer, W.PitchOut(semitones, clockRatio, sourceClock, regs, Env(), ch))
    {
      hide Ay.FreqOut, E.ToneNote;
      var v := regs[8 + ch];
      if (v / 16) % 2 == 1 && period < W.WAVEFORM_PERIOD {
        var steps := W.WaveSteps(shape);
        if steps > 0 {
          var freq := sourceClock as real / (16 * period * steps) as real;
          UpdateFreq(ch, freq);
          return;
        }
      }
      var tp: nat := (regs[ch * 2 + 1] as int % 16) * 256 + regs[ch * 2] as int;
      if tp == 0 {
        UpdateFreq(ch, 0.0);
      } else {
        var freq := sourceClock as real / (16 * tp) as real;
        UpdateFreq(ch, freq);
      }
    }

    /** The pitch of the three channels in turn. */
    method RecalculateAll()
      requires Valid()
      modifies this`calls
      ensures calls == old(calls) + E.Emit(writer, W.PitchOutAll(semitones, clockRatio, sourceClock, regs, Env()))
    {
      hide W.PitchOut, E.Emit;
      RecalculateFreq(0);
      RecalculateFreq(1);
      RecalculateFreq(2);
      E.EmitAppend(writer, W.PitchOut(semitones, clockRatio, sourceClock, regs, Env(), 0), W.PitchOut(semitones, clockRatio, sourceClock, regs, Env(), 1));
      E.EmitAppend(writer, W.PitchOut(semitones, clockRatio, sourceClock, regs, Env(), 0) + W.PitchOut(semitones, clockRatio, sourceClock, regs, Env(), 1),
        W.PitchOut(semitones, clockRatio, sourceClock, regs, Env(), 2));
    }

    /** `_reset_envelope_segment`: the level jumps to the start of the current segment. */
    method ResetSegment()
      requires shape < 16 && segment < 2
      modifies this`value
      ensures value == E.SegmentStart(shape, segment)
    {
      var proc := E.SegmentProc(shape, segment);
      if proc == E.SlideDown || proc == E.HoldTop {
        value := 31;
      } else {
        value := 0;
      }
    }

    /** A new note on channel `ch` restarts the envelope when the channel uses it and its shape is one-shot. */
    method RetriggerEnvelope(ch: nat)
      requires Valid() && ch < 3
      modifies this`counter, this`segment, this`value
      ensures Valid()
      ensures Env() == Retrigger(regs, old(Env()), ch)
    {
      if (regs[8 + ch] / 16) % 2 == 1 {
        if !(shape == 8 || shape == 10 || shape == 12 || shape == 14) {
          counter := 0;
          segment := 0;
          ResetSegment();
        }
      }
    }

    /**
     * `ay_to_opm_update_envelope`: one tick of the envelope; when the step
     * falls due, the envelope-mode channels get their new TL.
     */
    method UpdateEnvelope()
      requires Valid()
      modifies this`counter, this`segment, this`value, this`calls
      ensures Valid()
      ensures Env() == E.EnvStep(old(Env()))
      ensures calls == old(calls) + (if E.Wraps(old(Env())) then E.Emit(writer, W.EnvToneOut(regs, Env(), 3)) else [])
    {
      counter := counter + 1;
      if counter >= period {
        counter := 0;
        match E.SegmentProc(shape, segment) {
          case SlideUp =>
            value := value + 1;
            if value > 31 {
              segment := 1 - segment;
              ResetSegment();
            }
          case SlideDown =>
            value := value - 1;
            if value < 0 {
              segment := 1 - segment;
              ResetSegment();
            }
          case _ =>
        }
        UpdateEnvelopeTones();
      }
    }

    /** The loop of `ay_to_opm_update_envelope` over the channels in envelope mode. */
    method UpdateEnvelopeTones()
      requires Valid()
      modifies this`calls
      ensures calls == old(calls) + E.Emit(writer, W.EnvToneOut(regs, Env(), 3))
    {
      hide W.ToneOut, E.Emit;
      var start := calls;
      var i := 0;
      E.EmitAppend(writer, [], []);
      while i < 3
        invariant 0 <= i <= 3
        invariant calls == start + E.Emit(writer, W.EnvToneOut(regs, Env(), i))
      {
        if (regs[8 + i] / 16) % 2 == 1 {
          UpdateTone(i);
        }
        E.EmitAppend(writer, W.EnvToneOut(regs, Env(), i), if W.EnvelopeMode(regs, i) then W.ToneOut(regs, Env(), i) else []);
        i := i + 1;
      }
    }

    /**
     * `ay_to_opm_write_reg`: a register above 15 is ignored outright;
     * otherwise the shadow takes the write, and the envelope and the writes
     * sent follow the write's step.
     */
    method WriteReg(addr: byte, data: byte)
      requires Valid()
      modifies this`regs, this`calls, this`counter, this`period, this`shape, this`segment, this`value
      ensures Valid()
      ensures addr > 15 ==> regs == old(regs) && Env() == old(Env()) && calls == old(calls)
      ensures addr <= 15 ==>
        var r := WriteStep(semitones, clockRatio, sourceClock, regs, old(Env()), mode, addr, old(regs)[addr], data);
        regs == old(regs)[addr := data] && Env() == r.env && calls == old(calls) + E.Emit(writer, r.out)
    {
      hide PeriodStep, MixerStep, NoiseOut, W.ToneOut, W.PitchOut, W.PitchOutAll, E.Emit;
      if addr > 15 {
        return;
      }
      E.EmitAppend(writer, [], []);
      var oldData := regs[addr];
      regs := regs[addr := data];
      if addr <= 5 {
        WriteTonePeriod(addr / 2);
      } else if 8 <= addr <= 10 {
        WriteAmplitude(addr - 8);
      } else if addr == 6 {
        UpdateNoise();
      } else if addr == 7 {
        WriteMixer(oldData);
      } else {
        WriteEnvelope(addr, data);
      }
    }

    /** A tone-period write: the channel's pitch and TL, then the retrigger of a one-shot envelope it uses. */
    method WriteTonePeriod(ch: nat)
      requires Valid() && ch < 3
      modifies this`counter, this`segment, this`value, this`calls
      ensures Valid()
      ensures var r := PeriodStep(semitones, clockRatio, sourceClock, regs, old(Env()), ch);
        Env() == r.env && calls == old(calls) + E.Emit(writer, r.out)
    {
      hide W.PitchOut, W.ToneOut, E.Emit;
      var pitch := W.PitchOut(semitones, clockRatio, sourceClock, regs, Env(), ch);
      var tone := W.ToneOut(regs, Env(), ch);
      RecalculateFreq(ch);
      UpdateTone(ch);
      E.EmitAppend(writer, pitch, tone);
      RetriggerEnvelope(ch);
    }

    /** An amplitude write: the channel's TL and pitch, then the noise. */
    method WriteAmplitude(ch: nat)
      requires Valid() && ch < 3
      modifies this`calls
      ensures calls == old(calls) + E.Emit(writer,
        W.ToneOut(regs, Env(), ch) + W.PitchOut(semitones, clockRatio, sourceClock, regs, Env(), ch) + NoiseOut(regs, mode))
    {
      hide W.PitchOut, W.ToneOut, NoiseOut, E.Emit;
      var tone := W.ToneOut(regs, Env(), ch);
      var pitch := W.PitchOut(semitones, clockRatio, sourceClock, regs, Env(), ch);
      UpdateTone(ch);
      RecalculateFreq(ch);
      UpdateNoise();
      E.EmitAppend(writer, tone, pitch);
      E.EmitAppend(writer, tone + pitch, NoiseOut(regs, mode));
    }

    /** A mixer write: the key events channel by channel, then the three TLs and the noise. */
    method WriteMixer(oldData: byte)
      requires Valid()
      modifies this`counter, this`segment, this`value, this`calls
      ensures Valid()
      ensures var r := MixerStep(semitones, clockRatio, sourceClock, regs, old(Env()), oldData, mode);
        Env() == r.env && calls == old(calls) + E.Emit(writer, r.out)
    {
      hide KeyStep, KeySteps, MixerTail, E.Emit, W.ToneOut, NoiseOut;
      MixerKeys(oldData);
      var keys := KeySteps(semitones, clockRatio, sourceClock, regs, old(Env()), oldData, 3).out;
      var mid := calls;
      UpdateTone(0);
      UpdateTone(1);
      UpdateTone(2);
      UpdateNoise();
      assert calls == mid + (E.Emit(writer, W.ToneOut(regs, Env(), 0)) + E.Emit(writer, W.ToneOut(regs, Env(), 1)) +
        E.Emit(writer, W.ToneOut(regs, Env(), 2)) + E.Emit(writer, NoiseOut(regs, mode)));
      TailEmit(writer, regs, Env(), mode);
      E.EmitAppend(writer, keys, MixerTail(regs, Env(), mode));
    }

    /** The first loop of the mixer write: the key events of channels 0 to 2, in order. */
    method MixerKeys(oldData: byte)
      requires Valid()
      modifies this`counter, this`segment, this`value, this`calls
      ensures Valid() && period == old(period) && shape == old(shape)
      ensures var k := KeySteps(semitones, clockRatio, sourceClock, regs, old(Env()), oldData, 3);
        Env() == k.env && calls == old(calls) + E.Emit(writer, k.out)
    {
      hide KeyStep, KeySteps, E.Emit;
      var e0 := Env();
      var start := calls;
      var i := 0;
      E.EmitAppend(writer, [], []);
      KeyStepsStep(semitones, clockRatio, sourceClock, regs, e0, oldData, 0);
      while i < 3
        invariant 0 <= i <= 3 && Valid() && period == e0.period && shape == e0.shape
        invariant Env() == KeySteps(semitones, clockRatio, sourceClock, regs, e0, oldData, i).env
        invariant calls == start + E.Emit(writer, KeySteps(semitones, clockRatio, sourceClock, regs, e0, oldData, i).out)
      {
        var p := KeySteps(semitones, clockRatio, sourceClock, regs, e0, oldData, i);
        var k := KeyStep(semitones, clockRatio, sourceClock, regs, Env(), oldData, i);
        KeyStepsStep(semitones, clockRatio, sourceClock, regs, e0, oldData, i);
        MixerChannel(i, oldData);
        E.EmitAppend(writer, p.out, k.out);
        i := i + 1;
      }
    }

    /** The mixer's step for channel `i`. */
    method MixerChannel(i: nat, oldData: byte)
      requires Valid() && i < 3
      modifies this`counter, this`segment, this`value, this`calls
      ensures Valid()
      ensures var k := KeyStep(semitones, clockRatio, sourceClock, regs, old(Env()), oldData, i);
        Env() == k.env && calls == old(calls) + E.Emit(writer, k.out)
    {
      hide W.PitchOut, W.ToneOut, E.Emit;
      var oldToneOn := (oldData / Ay.Pow2(i)) % 2 == 0;
      var newToneOn := (regs[7] / Ay.Pow2(i)) % 2 == 0;
      var opmCh := i + Ay.OPM_CH_BASE;
      if newToneOn && !oldToneOn {
        var pitch := W.PitchOut(semitones, clockRatio, sourceClock, regs, Env(), i);
        var tone := W.ToneOut(regs, Env(), i);
        RecalculateFreq(i);
        UpdateTone(i);
        calls := calls + E.Emit(writer, [Ay.Opm(0x08, 0x78 + opmCh)]);
        E.EmitAppend(writer, pitch, tone);
        E.EmitAppend(writer, pitch + tone, [Ay.Opm(0x08, 0x78 + opmCh)]);
        RetriggerEnvelope(i);
      } else if !newToneOn && oldToneOn {
        calls := calls + E.Emit(writer, [Ay.Opm(0x08, opmCh)]);
      } else {
        E.EmitAppend(writer, [], []);
      }
    }

    /** The envelope registers: 11 and 12 set the period (never below 1), 13 restarts the envelope; both resend the three pitches. */
    method WriteEnvelope(addr: nat, data: byte)
      requires Valid() && 11 <= addr <= 15
      modifies this`counter, this`period, this`shape, this`segment, this`value, this`calls
      ensures Valid()
      ensures Env() == E.EnvWrite(old(Env()), regs, addr, data)
      ensures calls == old(calls) + (if addr <= 13 then E.Emit(writer, W.PitchOutAll(semitones, clockRatio, sourceClock, regs, Env())) else [])
    {
      if addr == 11 || addr == 12 {
        period := regs[12] as int * 256 + regs[11] as int;
        if period == 0 {
          period := 1;
        }
        RecalculateAll();
      } else if addr == 13 {
        shape := data % 16;
        counter := 0;
        segment := 0;
        ResetSegment();
        RecalculateAll();
      }
    }
  }

  lemma TailEmit(writer: bool, regs: seq<byte>, e: E.Envelope, mode: int)
    requires |regs| == 16 && E.EnvGood(e)
    ensures E.Emit(writer, W.ToneOut(regs, e, 0)) + E.Emit(writer, W.ToneOut(regs, e, 1)) +
      E.Emit(writer, W.ToneOut(regs, e, 2)) + E.Emit(writer, NoiseOut(regs, mode)) == E.Emit(writer, MixerTail(regs, e, mode))
  {
  }

  /** The data written to the key-on register 0x08, in order. */
  function KeyWrites(out: seq<Ay.OpmCall>): (keys: seq<byte>)
    ensures |keys| <= |out|
  {
    if out == [] then []
    else (if out[0].Opm? && out[0].addr == 0x08 then [out[0].data] else []) + KeyWrites(out[1..])
  }

  lemma {:induction false} KeyWritesAppend(a: seq<Ay.OpmCall>, b: seq<Ay.OpmCall>)
    ensures KeyWrites(a + b) == KeyWrites(a) + KeyWrites(b)
  {
    if a != [] {
      assert (a + b)[1..] == a[1..] + b;
      KeyWritesAppend(a[1..], b);
    } else {
      assert a + b == b;
    }
  }

  /** A byte is among the key writes exactly when a write of it to 0x08 is sent. */
  lemma {:induction false} KeyWritesMember(out: seq<Ay.OpmCall>, d: byte)
    ensures d in KeyWrites(out) <==> Ay.Opm(0x08, d) in out
  {
    if out != [] {
      KeyWritesMember(out[1..], d);
      assert out == [out[0]] + out[1..];
    }
  }

  /** The key codes a mixer write should send for channels 0 to `n - 1`: key-on of all operators when the tone turns on, key-off when it turns off. */
  function KeyCodes(oldData: byte, mixer: byte, n: nat): (codes: seq<byte>)
    requires n <= 3
    ensures |codes| <= n
  {
    if n == 0 then []
    else
      var i := n - 1;
      KeyCodes(oldData, mixer, i) +
      (if MixerToneOn(mixer, i) && !MixerToneOn(oldData, i) then [0x78 + Ay.OPM_CH_BASE + i]
       else if !MixerToneOn(mixer, i) && MixerToneOn(oldData, i) then [Ay.OPM_CH_BASE + i]
       else [])
  }

  /** A channel's key-on code is among the codes exactly when its tone turns on, its key-off code exactly when its tone turns off. */
  lemma {:induction false} KeyCodesMember(oldData: byte, mixer: byte, n: nat, i: nat)
    requires n <= 3 && i < 3
    ensures 0x78 + Ay.OPM_CH_BASE + i in KeyCodes(oldData, mixer, n) <==> i < n && MixerToneOn(mixer, i) && !MixerToneOn(oldData, i)
    ensures Ay.OPM_CH_BASE + i in KeyCodes(oldData, mixer, n) <==> i < n && !MixerToneOn(mixer, i) && MixerToneOn(oldData, i)
  {
    if n > 0 {
      KeyCodesMember(oldData, mixer, n - 1, i);
    }
  }

  /** The pitch and TL writes of a channel never touch the key-on register. */
  lemma NoteHasNoKeys(semitones: OpmPitch.Semitones, clockRatio: real, clock: u32, regs: seq<byte>, e: E.Envelope, ch: nat)
    requires |regs| == 16 && E.EnvGood(e) && ch < 3
    ensures KeyWrites(W.PitchOut(semitones, clockRatio, clock, regs, e, ch)) == []
    ensures KeyWrites(W.ToneOut(regs, e, ch)) == []
  {
    var p := W.PitchOut(semitones, clockRatio, clock, regs, e, ch);
    assert p[1..][1..] == [];
    var t := W.ToneOut(regs, e, ch);
    assert t[1..] == [];
  }

  lemma {:induction false} KeyStepsKeys(semitones: OpmPitch.Semitones, clockRatio: real, clock: u32, regs: seq<byte>, e: E.Envelope, oldData: byte, n: nat)
    requires |regs| == 16 && E.EnvGood(e) && n <= 3
    ensures KeyWrites(KeySteps(semitones, clockRatio, clock, regs, e, oldData, n).out) == KeyCodes(oldData, regs[7], n)
  {
    hide KeySteps, KeyStep, KeyWrites;
    if n == 0 {
      KeyStepsStep(semitones, clockRatio, clock, regs, e, oldData, 0);
      KeyWritesAppend([], []);
    } else {
      var p := KeySteps(semitones, clockRatio, clock, regs, e, oldData, n - 1);
      var k := KeyStep(semitones, clockRatio, clock, regs, p.env, oldData, n - 1);
      KeyStepsStep(semitones, clockRatio, clock, regs, e, oldData, n - 1);
      KeyStepsKeys(semitones, clockRatio, clock, regs, e, oldData, n - 1);
      KeyWritesAppend(p.out, k.out);
      KeyStepKeys(semitones, clockRatio, clock, regs, p.env, oldData, n - 1);
    }
  }

  /** The key-register writes of one channel's mixer step: its key-on code, its key-off code, or none. */
  lemma KeyStepKeys(semitones: OpmPitch.Semitones, clockRatio: real, clock: u32, regs: seq<byte>, e: E.Envelope, oldData: byte, i: nat)
    requires |regs| == 16 && E.EnvGood(e) && i < 3
    ensures KeyWrites(KeyStep(semitones, clockRatio, clock, regs, e, oldData, i).out) ==
      if MixerToneOn(regs[7], i) && !MixerToneOn(oldData, i) then [0x78 + Ay.OPM_CH_BASE + i]
      else if !MixerToneOn(regs[7], i) && MixerToneOn(oldData, i) then [Ay.OPM_CH_BASE + i]
      else []
  {
    hide W.PitchOut, W.ToneOut;
    if MixerToneOn(regs[7], i) && !MixerToneOn(oldData, i) {
      var pitch := W.PitchOut(semitones, clockRatio, clock, regs, e, i);
      var tone := W.ToneOut(regs, e, i);
      NoteHasNoKeys(semitones, clockRatio, clock, regs, e, i);
      KeyWritesAppend(pitch, tone);
      KeyWritesAppend(pitch + tone, [Ay.Opm(0x08, 0x78 + Ay.OPM_CH_BASE + i)]);
    }
  }

  lemma NoiseHasNoKeys(regs: seq<byte>, mode: int)
    requires |regs| == 16
    ensures KeyWrites(NoiseOut(regs, mode)) == []
  {
    var o := NoiseOut(regs, mode);
    var o1 := o[1..];
    var o2 := o1[1..];
    assert o2[1..] == [];
    assert KeyWrites(o2) == [];
    assert KeyWrites(o1) == [];
  }

  /**
   * The key-on register writes of a mixer write are exactly the key codes,
   * channel by channel: the TLs and the noise that follow send none.
   */
  lemma MixerKeyWrites(semitones: OpmPitch.Semitones, clockRatio: real, clock: u32, regs: seq<byte>, e: E.Envelope, oldData: byte, mode: int)
    requires |regs| == 16 && E.EnvGood(e)
    ensures KeyWrites(MixerStep(semitones, clockRatio, clock, regs, e, oldData, mode).out) == KeyCodes(oldData, regs[7], 3)
  {
    var k := KeySteps(semitones, clockRatio, clock, regs, e, oldData, 3);
    KeyStepsKeys(semitones, clockRatio, clock, regs, e, oldData, 3);
    var t0 := W.ToneOut(regs, k.env, 0);
    var t1 := W.ToneOut(regs, k.env, 1);
    var t2 := W.ToneOut(regs, k.env, 2);
    var nz := NoiseOut(regs, mode);
    NoteHasNoKeys(semitones, clockRatio, clock, regs, k.env, 0);
    NoteHasNoKeys(semitones, clockRatio, clock, regs, k.env, 1);
    NoteHasNoKeys(semitones, clockRatio, clock, regs, k.env, 2);
    NoiseHasNoKeys(regs, mode);
    KeyWritesAppend(t0, t1);
    KeyWritesAppend(t0 + t1, t2);
    KeyWritesAppend(t0 + t1 + t2, nz);
    KeyWritesAppend(k.out, MixerTail(regs, k.env, mode));
  }

  /**
   * A mixer write keys channel `i` on (all four operators) exactly when its
   * tone bit goes from set to clear, and keys it off exactly when the bit
   * goes from clear to set.
   */
  lemma MixerKeyEvents(semitones: OpmPitch.Semitones, clockRatio: real, clock: u32, regs: seq<byte>, e: E.Envelope, oldData: byte, mode: int, i: nat)
    requires |regs| == 16 && E.EnvGood(e) && i < 3
    ensures var out := MixerStep(semitones, clockRatio, clock, regs, e, oldData, mode).out;
      (Ay.Opm(0x08, 0x78 + Ay.OPM_CH_BASE + i) in out <==> MixerToneOn(regs[7], i) && !MixerToneOn(oldData, i)) &&
      (Ay.Opm(0x08, Ay.OPM_CH_BASE + i) in out <==> !MixerToneOn(regs[7], i) && MixerToneOn(oldData, i))
  {
    var out := MixerStep(semitones, clockRatio, clock, regs, e, oldData, mode).out;
    MixerKeyWrites(semitones, clockRatio, clock, regs, e, oldData, mode);
    KeyWritesMember(out, 0x78 + Ay.OPM_CH_BASE + i);
    KeyWritesMember(out, Ay.OPM_CH_BASE + i);
    KeyCodesMember(oldData, regs[7], 3, i);
  }

  /** Only the mixer sends key events: every other register write leaves the key-on register alone. */
  lemma OnlyMixerKeys(semitones: OpmPitch.Semitones, clockRatio: real, clock: u32, regs: seq<byte>, e: E.Envelope, mode: int, addr: nat, oldData: byte, data: byte)
    requires |regs| == 16 && E.EnvGood(e) && addr < 16 && addr != 7
    ensures KeyWrites(WriteStep(semitones, clockRatio, clock, regs, e, mode, addr, oldData, data).out) == []
  {
    if addr <= 5 {
      NoteHasNoKeys(semitones, clockRatio, clock, regs, e, addr / 2);
      KeyWritesAppend(W.PitchOut(semitones, clockRatio, clock, regs, e, addr / 2), W.ToneOut(regs, e, addr / 2));
    } else if 8 <= addr <= 10 {
      var ch := addr - 8;
      var t := W.ToneOut(regs, e, ch);
      var p := W.PitchOut(semitones, clockRatio, clock, regs, e, ch);
      NoteHasNoKeys(semitones, clockRatio, clock, regs, e, ch);
      NoiseHasNoKeys(regs, mode);
      KeyWritesAppend(t, p);
      KeyWritesAppend(t + p, NoiseOut(regs, mode));
    } else if addr == 6 {
      NoiseHasNoKeys(regs, mode);
    } else if 11 <= addr <= 13 {
      var e2 := E.EnvWrite(e, regs, addr, data);
      var p0 := W.PitchOut(semitones, clockRatio, clock, regs, e2, 0);
      var p1 := W.PitchOut(semitones, clockRatio, clock, regs, e2, 1);
      var p2 := W.PitchOut(semitones, clockRatio, clock, regs, e2, 2);
      NoteHasNoKeys(semitones, clockRatio, clock, regs, e2, 0);
      NoteHasNoKeys(semitones, clockRatio, clock, regs, e2, 1);
      NoteHasNoKeys(semitones, clockRatio, clock, regs, e2, 2);
      KeyWritesAppend(p0, p1);
      KeyWritesAppend(p0 + p1, p2);
    }
  }

  /** Some channel with noise on is panned to the side whose RL bit is `bit`. */
  ghost predicate SomeNoiseSide(regs: seq<byte>, pans: seq<byte>, bit: nat)
    requires |regs| == 16 && |pans| == 3 && (bit == 64 || bit == 128)
  {
    exists j :: 0 <= j < 3 && Ay.NoiseOn(regs, j) && (pans[j] / bit) % 2 == 1
  }

  lemma {:induction false} NoiseSideSome(regs: seq<byte>, pans: seq<byte>, bit: nat, n: nat)
    requires |regs| == 16 && |pans| == 3 && n <= 3 && (bit == 64 || bit == 128)
    ensures NoiseSide(regs, pans, bit, n) <==> exists j :: 0 <= j < n && Ay.NoiseOn(regs, j) && (pans[j] / bit) % 2 == 1
  {
    if n > 0 {
      NoiseSideSome(regs, pans, bit, n - 1);
    }
  }

  /**
   * The noise is panned to one side exactly when some noise channel sounds on
   * that side and none on the other; otherwise it is centred.
   */
  lemma NoisePanUnion(regs: seq<byte>, mode: int)
    requires |regs| == 16
    ensures var pans := PanMap(mode); var left := SomeNoiseSide(regs, pans, 64); var right := SomeNoiseSide(regs, pans, 128);
      (NoisePan(regs, mode) == PAN_LEFT <==> left && !right) &&
      (NoisePan(regs, mode) == PAN_RIGHT <==> right && !left) &&
      (NoisePan(regs, mode) == PAN_CENTER <==> left == right)
  {
    NoiseSideSome(regs, PanMap(mode), 64, 3);
    NoiseSideSome(regs, PanMap(mode), 128, 3);
  }

  /** The position of a pan in a mode's name: left first, centre second, right third. */
  function PanSlot(pan: byte): (k: nat)
    ensures k < 3
  {
    if pan == PAN_LEFT then 0 else if pan == PAN_CENTER then 1 else 2
  }

  /**
   * A stereo mode's name reads its channels from left to right: channel A,
   * B or C stands at the place of its pan, so the three pans differ; mono and
   * any value outside the enumeration centre every channel.
   */
  lemma PanFollowsModeName(mode: int)
    ensures 0 <= mode < STEREO_MONO ==>
      (forall i :: 0 <= i < 3 ==> ModeName(mode)[PanSlot(PanMap(mode)[i])] == "ABC"[i]) &&
      PanMap(mode)[0] != PanMap(mode)[1] && PanMap(mode)[1] != PanMap(mode)[2] && PanMap(mode)[0] != PanMap(mode)[2]
    ensures !(0 <= mode < STEREO_MONO) ==> forall i :: 0 <= i < 3 ==> PanMap(mode)[i] == PAN_CENTER
  {
  }

  /** In mono every channel's connection write is the fixed one the earlier versions sent at set-up. */
  lemma MonoMatchesFixedConnection(i: nat)
    requires i < 3
    ensures PanOut(STEREO_MONO)[i] == Ay.ToneSetup(Ay.OPM_CH_BASE + i)[0]
  {
  }

  /** The one-shot shapes are those whose second segment holds a level. */
  lemma OneShotHolds(shape: nat)
    requires shape < 16
    ensures OneShot(shape) <==> E.SegmentProc(shape, 1) in {E.HoldBottom, E.HoldTop}
  {
  }

  /** A restarted one-shot envelope is at its first segment's start, whatever it was doing; a repeating one is left running. */
  lemma RetriggerRules(regs: seq<byte>, e: E.Envelope, ch: nat)
    requires |regs| == 16 && E.EnvGood(e) && ch < 3
    ensures var r := Retrigger(regs, e, ch);
      (W.EnvelopeMode(regs, ch) && E.SegmentProc(e.shape, 1) in {E.HoldBottom, E.HoldTop} ==>
        r.counter == 0 && r.segment == 0 && (r.value == 31 <==> E.SegmentProc(e.shape, 0) == E.SlideDown))
      && (!W.EnvelopeMode(regs, ch) || !OneShot(e.shape) ==> r == e)
  {
    OneShotHolds(e.shape);
  }
}
