// The v0.915 WonderSwan-to-OPM transcoder: a shadow of the 32 sound
// registers, the state of the four channels, and the YM2151 writes each
// register write turns into. Channel 3 can be switched to noise, which plays
// on the OPM noise operator of channel 7. The sample clock the transcoder
// keeps for its pitch-bend delay is a 32-bit counter that wraps.

module V0915WsToOpm {
  import opened Bytes
  import opened ChipType
  import OpmPitch
  import Ay = V0087AyToOpm
  import E = V0884AyToOpm

  const NUM_CHANNELS: nat := 4
  const PAN_LEFT: byte := 0x40
  const PAN_RIGHT: byte := 0x80
  const PAN_CENTER: byte := 0xC0
  /** The OPM channel the noise plays on. */
  const NOISE_CH: nat := 7
  /** The samples a note sounds before its pitch is followed (100 ms at 44.1 kHz). */
  const VIBRATO_DELAY: nat := 4410
  const U32_SIZE: nat := 0x1_0000_0000
  /** The key offset of this transcoder: an octave down and 2.5 semitones up. */
  const DETUNE: real := -9.5

  /** WonderSwan volume (0..15) to the carrier's total level, TL 40 down to 15. */
  const VOL_TO_TL: seq<byte> := [127, 40, 38, 36, 34, 32, 30, 28, 26, 24, 22, 20, 18, 17, 16, 15]
  /** WonderSwan volume to the noise operator's total level. */
  const NOISE_VOL_TO_TL: seq<byte> := [127, 125, 122, 119, 116, 113, 110, 107, 104, 101, 98, 95, 92, 89, 86, 83]

  /** `ws_channel_state_t`: a channel's period, volumes, enable bit, whether a note sounds, when it started, and the pitch last sent. */
  datatype Channel = Channel(period: nat, volLeft: nat, volRight: nat, enabled: bool, active: bool,
                             noteOnTime: u32, lastKc: byte, lastKf: byte)

  const CHANNEL_ZERO: Channel := Channel(0, 0, 0, false, false, 0, 0, 0)

  /** What the register protocol can put in a channel: a period up to 2048, 4-bit volumes, a 6-bit key fraction. */
  predicate ChannelGood(c: Channel)
  {
    c.period <= 2048 && c.volLeft < 16 && c.volRight < 16 && c.lastKf < 64
  }

  /** The 11-bit period of a register pair, the all-ones period standing for 2048. */
  function PeriodOf(hi: byte, lo: byte): (p: nat)
    ensures p <= 2048 && p != 0x7FF
    ensures p == 2048 <==> hi % 8 == 7 && lo == 0xFF
    ensures p < 2048 ==> p == (hi % 8) * 256 + lo
  {
    var p := (hi % 8) * 256 + lo;
    if p == 0x7FF then 2048 else p
  }

  /** `period_to_freq`: the tone frequency of a period, 0 from 2048 up. */
  function PeriodToFreq(period: nat): (f: real)
    ensures f >= 0.0
    ensures f == 0.0 <==> period >= 2048
  {
    if period >= 2048 then 0.0 else (3072000.0 / (2048 - period) as real) / 32.0
  }

  /** `freqToOPMNote` with this transcoder's offset. */
  function WsNote(semitones: OpmPitch.Semitones, freq: real, clockRatio: real): (n: OpmPitch.Note)
    ensures n.kf < 64
  {
    OpmPitch.FreqToNote(semitones, freq * clockRatio, DETUNE)
  }

  /** The louder of the two sides. */
  function MaxVol(c: Channel): (v: nat)
    requires ChannelGood(c)
    ensures v < 16 && (v == c.volLeft || v == c.volRight) && v >= c.volLeft && v >= c.volRight
  {
    if c.volLeft > c.volRight then c.volLeft else c.volRight
  }

  /** A tone's pan: centre, unless one side is silent and the other is not. */
  function TonePan(c: Channel): (pan: byte)
  {
    if c.volLeft + c.volRight > 0 then
      if c.volLeft == 0 then PAN_RIGHT else if c.volRight == 0 then PAN_LEFT else PAN_CENTER
    else PAN_CENTER
  }

  /** The noise's pan: right when the left side is silent, left when the right one is, else centre. */
  function NoisePan(c: Channel): (pan: byte)
  {
    if c.volLeft == 0 then PAN_RIGHT else if c.volRight == 0 then PAN_LEFT else PAN_CENTER
  }

  /** The OPM noise frequency of a period: a longer period, a lower noise. */
  function NoiseFreq(period: nat): (nf: nat)
    ensures nf in {2, 6, 12, 18, 22, 24, 26, 28, 29, 30, 31}
  {
    if period > 1800 then 31
    else if period > 1600 then 30
    else if period > 1400 then 29
    else if period > 1200 then 28
    else if period > 1000 then 26
    else if period > 800 then 24
    else if period > 600 then 22
    else if period > 400 then 18
    else if period > 200 then 12
    else if period > 100 then 6
    else 2
  }

  /** The channel is enabled and one of its sides is audible. */
  predicate ShouldBeOn(c: Channel)
  {
    c.enabled && (c.volLeft > 0 || c.volRight > 0)
  }

  /** Channel 3 plays noise when bit 7 of the channel-control register is set. */
  predicate NoiseMode(regs: seq<byte>, ch: nat)
    requires |regs| == 32
  {
    ch == 3 && regs[0x10] >= 0x80
  }

  /** A channel's state after an update, and the writes the update sent. */
  datatype Update = Update(ch: Channel, out: seq<Ay.OpmCall>)

  /** `_update_channel` for channel 3 in noise mode: the tone keyed off, then the noise sounded or muted. */
  function NoiseUpdate(c: Channel): (r: Update)
    requires ChannelGood(c)
    ensures ChannelGood(r.ch) && r.ch == c.(active := ShouldBeOn(c))
  {
    var on := ShouldBeOn(c);
    Update(c.(active := on),
      [Ay.Opm(0x08, NOISE_CH)] +
      if on then
        [Ay.Opm(0x0F, 0x80 + NoiseFreq(c.period)), Ay.Opm(0x20 + NOISE_CH, NoisePan(c) + 0x3C),
         Ay.Opm(0x78 + NOISE_CH, NOISE_VOL_TO_TL[MaxVol(c)]), Ay.Opm(0x08, 0x40 + NOISE_CH)]
      else [Ay.Opm(0x78 + NOISE_CH, 0x7F)])
  }

  /** The pan and TL writes of a sounding tone on OPM channel `opmCh`. */
  function LevelOut(c: Channel, opmCh: nat): (out: seq<Ay.OpmCall>)
    requires ChannelGood(c) && 4 <= opmCh < 8
  {
    [Ay.Opm(0x20 + opmCh, TonePan(c) + 0x3C), Ay.Opm(0x70 + opmCh, VOL_TO_TL[MaxVol(c)])]
  }

  /** The pan and TL depend on the two volumes alone. */
  lemma LevelOutOfVolumes(c1: Channel, c2: Channel, opmCh: nat)
    requires ChannelGood(c1) && ChannelGood(c2) && 4 <= opmCh < 8
    requires c1.volLeft == c2.volLeft && c1.volRight == c2.volRight
    ensures LevelOut(c1, opmCh) == LevelOut(c2, opmCh)
  {
  }

  /** A new note: its start time is taken, and with a frequency the pitch, levels and key-on of both slots go out; with none the key-on is aborted. */
  function KeyOnUpdate(semitones: OpmPitch.Semitones, clockRatio: real, total: u32, c: Channel, opmCh: nat): (r: Update)
    requires ChannelGood(c) && 4 <= opmCh < 8
    ensures ChannelGood(r.ch)
  {
    var freq := PeriodToFreq(c.period);
    if freq == 0.0 then Update(c.(active := false, noteOnTime := total), [])
    else
      var n := WsNote(semitones, freq, clockRatio);
      Update(c.(active := true, noteOnTime := total, lastKc := n.kc, lastKf := n.kf),
        [Ay.Opm(0x28 + opmCh, n.kc), Ay.Opm(0x30 + opmCh, n.kf * 4)] + LevelOut(c, opmCh) + [Ay.Opm(0x08, 0x18 + opmCh)])
  }

  /** The pitch-bend delay has run out: the 32-bit sample clock has reached the 32-bit sum of the start and the delay. */
  predicate BendDue(total: u32, noteOnTime: u32)
  {
    total >= (noteOnTime + VIBRATO_DELAY) % U32_SIZE
  }

  /** A sounding note: once the delay has run out its pitch is resent if it changed; its pan and TL are always resent. */
  function SustainUpdate(semitones: OpmPitch.Semitones, clockRatio: real, total: u32, c: Channel, opmCh: nat): (r: Update)
    requires ChannelGood(c) && 4 <= opmCh < 8
    ensures ChannelGood(r.ch)
  {
    var freq := PeriodToFreq(c.period);
    var n := WsNote(semitones, freq, clockRatio);
    if BendDue(total, c.noteOnTime) && freq > 0.0 && (n.kc != c.lastKc || n.kf != c.lastKf) then
      Update(c.(lastKc := n.kc, lastKf := n.kf),
        [Ay.Opm(0x28 + opmCh, n.kc), Ay.Opm(0x30 + opmCh, n.kf * 4)] + LevelOut(c, opmCh))
    else Update(c, LevelOut(c, opmCh))
  }

  /** `_update_channel` in tone mode: channel 3 mutes the noise first; then key-on, key-off, or the sounding note's update. */
  function ToneUpdate(semitones: OpmPitch.Semitones, clockRatio: real, total: u32, c: Channel, ch: nat): (r: Update)
    requires ChannelGood(c) && ch < 4
    ensures ChannelGood(r.ch)
  {
    var opmCh := ch + 4;
    var pre := if ch == 3 then [Ay.Opm(0x78 + opmCh, 0x7F)] else [];
    var on := ShouldBeOn(c);
    if on && !c.active then
      var k := KeyOnUpdate(semitones, clockRatio, total, c, opmCh);
      Update(k.ch, pre + k.out)
    else if !on && c.active then Update(c.(active := false), pre + [Ay.Opm(0x08, opmCh)])
    else if on && c.active then
      var s := SustainUpdate(semitones, clockRatio, total, c, opmCh);
      Update(s.ch, pre + s.out)
    else Update(c, pre)
  }

  /** `_update_channel`: noise for channel 3 in noise mode, tone otherwise. */
  function ChannelUpdate(semitones: OpmPitch.Semitones, clockRatio: real, total: u32, regs: seq<byte>, c: Channel, ch: nat): (r: Update)
    requires |regs| == 32 && ChannelGood(c) && ch < 4
    ensures ChannelGood(r.ch)
    ensures r.ch.period == c.period && r.ch.volLeft == c.volLeft && r.ch.volRight == c.volRight && r.ch.enabled == c.enabled
  {
    if NoiseMode(regs, ch) then NoiseUpdate(c) else ToneUpdate(semitones, clockRatio, total, c, ch)
  }

  /** The channels after updating channels 0 to `n - 1` in turn, and the writes sent. */
  datatype Updates = Updates(chans: seq<Channel>, out: seq<Ay.OpmCall>)

  predicate ChannelsGood(chans: seq<Channel>)
  {
    |chans| == NUM_CHANNELS && forall i :: 0 <= i < |chans| ==> ChannelGood(chans[i])
  }

  function UpdateAll(semitones: OpmPitch.Semitones, clockRatio: real, total: u32, regs: seq<byte>, chans: seq<Channel>, n: nat): (r: Updates)
    requires |regs| == 32 && ChannelsGood(chans) && n <= NUM_CHANNELS
    ensures ChannelsGood(r.chans)
  {
    if n == 0 then Updates(chans, [])
    else
      var p := UpdateAll(semitones, clockRatio, total, regs, chans, n - 1);
      var u := ChannelUpdate(semitones, clockRatio, total, regs, p.chans[n - 1], n - 1);
      Updates(p.chans[n - 1 := u.ch], p.out + u.out)
  }

  /** One more channel of `UpdateAll`, and none at all. */
  lemma UpdateAllStep(semitones: OpmPitch.Semitones, clockRatio: real, total: u32, regs: seq<byte>, chans: seq<Channel>, n: nat)
    requires |regs| == 32 && ChannelsGood(chans) && n < NUM_CHANNELS
    ensures UpdateAll(semitones, clockRatio, total, regs, chans, 0) == Updates(chans, [])
    ensures var p := UpdateAll(semitones, clockRatio, total, regs, chans, n);
      var u := ChannelUpdate(semitones, clockRatio, total, regs, p.chans[n], n);
      UpdateAll(semitones, clockRatio, total, regs, chans, n + 1) == Updates(p.chans[n := u.ch], p.out + u.out)
  {
  }

  /** The enable bits of a channel-control value, one per channel. */
  function Enabled(chans: seq<Channel>, data: byte): (r: seq<Channel>)
    requires ChannelsGood(chans)
    ensures ChannelsGood(r)
  {
    seq(NUM_CHANNELS, i requires 0 <= i < NUM_CHANNELS => chans[i].(enabled := (data / Ay.Pow2(i)) % 2 == 1))
  }

  /** The channel states and the writes of a write of `data` to `addr < 32`, given the shadow after it. */
  function WriteStep(semitones: OpmPitch.Semitones, clockRatio: real, total: u32, regs: seq<byte>, chans: seq<Channel>, addr: nat, data: byte): (r: Updates)
    requires |regs| == 32 && ChannelsGood(chans) && addr < 32
    ensures ChannelsGood(r.chans)
  {
    if addr <= 7 then
      var ch := addr / 2;
      var c := chans[ch].(period := PeriodOf(regs[2 * ch + 1], regs[2 * ch]));
      var u := ChannelUpdate(semitones, clockRatio, total, regs, c, ch);
      Updates(chans[ch := u.ch], u.out)
    else if 8 <= addr <= 0x0B then
      var ch := addr - 8;
      var c := chans[ch].(volRight := data % 16, volLeft := data / 16);
      var u := ChannelUpdate(semitones, clockRatio, total, regs, c, ch);
      Updates(chans[ch := u.ch], u.out)
    else if addr == 0x0E then
      var u := ChannelUpdate(semitones, clockRatio, total, regs, chans[3], 3);
      Updates(chans[3 := u.ch], u.out)
    else if addr == 0x10 then UpdateAll(semitones, clockRatio, total, regs, Enabled(chans, data), NUM_CHANNELS)
    else Updates(chans, [])
  }

  /** The voice set-up of OPM channel `opmCh`: centre pan, the modulator and carrier parameters, the carrier muted, no key-on. */
  function ToneSetup(opmCh: nat): (out: seq<Ay.OpmCall>)
    requires 4 <= opmCh < 8
    ensures |out| == 13
  {
    [Ay.Opm(0x20 + opmCh, PAN_CENTER + 0x3C), Ay.Opm(0x40 + opmCh, 0x02), Ay.Opm(0x50 + opmCh, 0x01),
     Ay.Opm(0x60 + opmCh, 0x1B), Ay.Opm(0x70 + opmCh, 0x7F), Ay.Opm(0x80 + opmCh, 0x1F), Ay.Opm(0x90 + opmCh, 0x1F),
     Ay.Opm(0xA0 + opmCh, 0), Ay.Opm(0xB0 + opmCh, 0), Ay.Opm(0xC0 + opmCh, 0), Ay.Opm(0xD0 + opmCh, 0),
     Ay.Opm(0xE0 + opmCh, 0x0F), Ay.Opm(0xF0 + opmCh, 0x0F)]
  }

  function ToneSetups(n: nat): (out: seq<Ay.OpmCall>)
    requires n <= NUM_CHANNELS
    ensures |out| == 13 * n
  {
    if n == 0 then [] else ToneSetups(n - 1) + ToneSetup(n - 1 + 4)
  }

  /** The set-up of the noise operator of channel 7, keyed on alone. */
  const NOISE_SETUP: seq<Ay.OpmCall> :=
    [Ay.Opm(0x27, 0xFC), Ay.Opm(0x5F, 0x00), Ay.Opm(0x7F, 0x7F), Ay.Opm(0x9F, 0x1F), Ay.Opm(0xBF, 0),
     Ay.Opm(0xDF, 0), Ay.Opm(0xFF, 0x0F), Ay.Opm(0x08, 0x47)]

  /** The channel states `ws_to_opm_init` leaves: all zero but enabled. */
  const INIT_CHANNELS: seq<Channel> := seq(NUM_CHANNELS, i => CHANNEL_ZERO.(enabled := true))

  class Converter {
    const semitones: OpmPitch.Semitones
    /** `_regs`: the sound registers 0x80..0x9F, at 0x00..0x1F. */
    var regs: seq<byte>
    /** `_ch_state`. */
    var channels: seq<Channel>
    /** `_total_samples`. */
    var totalSamples: u32
    var clockRatio: real
    var sourceClock: u32
    var sourceChip: Chip
    /** Whether a write callback is installed. */
    var writer: bool
    /** Every write made through the callback so far. */
    var calls: seq<Ay.OpmCall>

    predicate Valid()
      reads this
    {
      |regs| == 32 && ChannelsGood(channels) && clockRatio >= 0.0
    }

    /** The statics before `ws_to_opm_init`: all zero, no callback. */
    constructor (semitones: OpmPitch.Semitones)
      ensures Valid()
      ensures this.semitones == semitones && regs == Zeros(32) && channels == seq(NUM_CHANNELS, i => CHANNEL_ZERO)
      ensures totalSamples == 0 && !writer && calls == []
    {
      this.semitones := semitones;
      regs := Zeros(32);
      channels := seq(NUM_CHANNELS, i => CHANNEL_ZERO);
      totalSamples := 0;
      clockRatio := 0.0;
      sourceClock := 0;
      sourceChip := NoChip;
      writer := false;
      calls := [];
    }

    /**
     * `ws_to_opm_init`: records the source and the callback, sets the clock
     * ratio, zeroes the shadow, the channel states and the sample clock,
     * enables every channel, and sets up OPM channels 4 to 7 and the noise.
     */
    method Init(chip: Chip, clock: u32, opmClock: real, hasWriter: bool)
      requires opmClock > 0.0
      modifies this`regs, this`channels, this`totalSamples, this`clockRatio, this`sourceClock, this`sourceChip, this`writer, this`calls
      ensures Valid()
      ensures sourceChip == chip && sourceClock == clock && writer == hasWriter && clockRatio == clock as real / opmClock
      ensures regs == Zeros(32) && channels == INIT_CHANNELS && totalSamples == 0
      ensures calls == old(calls) + E.Emit(hasWriter, ToneSetups(NUM_CHANNELS) + NOISE_SETUP)
    {
      hide ToneSetup, E.Emit;
      var chans := seq(NUM_CHANNELS, i => CHANNEL_ZERO);
      var tones: seq<Ay.OpmCall> := [];
      var i := 0;
      while i < NUM_CHANNELS
        invariant 0 <= i <= NUM_CHANNELS && |chans| == NUM_CHANNELS
        invariant forall j :: 0 <= j < NUM_CHANNELS ==> chans[j] == CHANNEL_ZERO.(enabled := j < i)
        invariant tones == ToneSetups(i)
      {
        chans := chans[i := chans[i].(enabled := true)];
        tones := tones + ToneSetup(i + 4);
        i := i + 1;
      }
      sourceChip := chip;
      sourceClock := clock;
      writer := hasWriter;
      clockRatio := clock as real / opmClock;
      regs := Zeros(32);
      channels := chans;
      totalSamples := 0;
      calls := calls + E.Emit(writer, tones) + E.Emit(writer, NOISE_SETUP);
      E.EmitAppend(writer, tones, NOISE_SETUP);
    }

    /** `ws_to_opm_update`: the sample clock advances, wrapping at 2^32. */
    method Update(samples: u32)
      modifies this`totalSamples
      ensures totalSamples == (old(totalSamples) + samples) % U32_SIZE
    {
      totalSamples := (totalSamples + samples) % U32_SIZE;
    }

    /**
     * `ws_to_opm_write_reg`: a register above 0x1F is ignored; otherwise the
     * shadow takes the write, and the channel states and the writes sent
     * follow the write's step.
     */
    method WriteReg(addr: byte, data: byte)
      requires Valid()
      modifies this`regs, this`channels, this`calls
      ensures Valid()
      ensures addr > 0x1F ==> regs == old(regs) && channels == old(channels) && calls == old(calls)
      ensures addr <= 0x1F ==>
        var r := WriteStep(semitones, clockRatio, totalSamples, regs, old(channels), addr, data);
        regs == old(regs)[addr := data] && channels == r.chans && calls == old(calls) + E.Emit(writer, r.out)
    {
      hide ChannelUpdate, UpdateAll, E.Emit;
      if addr > 0x1F {
        return;
      }
      regs := regs[addr := data];
      if addr <= 7 {
        var ch := addr / 2;
        var period := PeriodOf(regs[2 * ch + 1], regs[2 * ch]);
        channels := channels[ch := channels[ch].(period := period)];
        UpdateChannel(ch);
      } else if addr <= 0x0B {
        var ch := addr - 8;
        channels := channels[ch := channels[ch].(volRight := data % 16, volLeft := data / 16)];
        UpdateChannel(ch);
      } else if addr == 0x0E {
        UpdateChannel(3);
      } else if addr == 0x10 {
        WriteControl(data);
      } else {
        E.EmitAppend(writer, [], []);
      }
    }

    /** The first loop of `_write_control`: bit `i` of `data` enables channel `i`. */
    static method SetEnables(chans: seq<Channel>, data: byte) returns (r: seq<Channel>)
      requires ChannelsGood(chans)
      ensures r == Enabled(chans, data)
    {
      r := chans;
      var i := 0;
      while i < 4
        invariant 0 <= i <= 4 && |r| == NUM_CHANNELS
        invariant forall j :: 0 <= j < NUM_CHANNELS ==>
          r[j] == if j < i then Enabled(chans, data)[j] else chans[j]
      {
        r := r[i := r[i].(enabled := (data / Ay.Pow2(i)) % 2 == 1)];
        i := i + 1;
      }
    }

    /** The channel-control register: the enable bits, then all four channels updated in turn. */
    method WriteControl(data: byte)
      requires Valid()
      modifies this`channels, this`calls
      ensures Valid()
      ensures var r := UpdateAll(semitones, clockRatio, totalSamples, regs, Enabled(old(channels), data), NUM_CHANNELS);
        channels == r.chans && calls == old(calls) + E.Emit(writer, r.out)
    {
      hide ChannelUpdate, E.Emit, UpdateAll, Enabled;
      channels := SetEnables(channels, data);
      var start := calls;
      var chans0 := channels;
      E.EmitAppend(writer, [], []);
      UpdateAllStep(semitones, clockRatio, totalSamples, regs, chans0, 0);
      var i := 0;
      while i < 4
        invariant 0 <= i <= 4 && Valid() && chans0 == Enabled(old(channels), data)
        invariant var r := UpdateAll(semitones, clockRatio, totalSamples, regs, chans0, i);
          channels == r.chans && calls == start + E.Emit(writer, r.out)
      {
        var p := UpdateAll(semitones, clockRatio, totalSamples, regs, chans0, i);
        var u := ChannelUpdate(semitones, clockRatio, totalSamples, regs, p.chans[i], i);
        UpdateAllStep(semitones, clockRatio, totalSamples, regs, chans0, i);
        UpdateChannel(i);
        E.EmitAppend(writer, p.out, u.out);
        i := i + 1;
      }
    }

    /** `_update_channel`. */
    method UpdateChannel(ch: nat)
      requires Valid() && ch < 4
      modifies this`channels, this`calls
      ensures Valid()
      ensures var r := ChannelUpdate(semitones, clockRatio, totalSamples, regs, old(channels)[ch], ch);
        channels == old(channels)[ch := r.ch] && calls == old(calls) + E.Emit(writer, r.out)
    {
      hide NoiseUpdate, ToneUpdate;
      var isNoiseMode := ch == 3 && regs[0x10] >= 0x80;
      if isNoiseMode {
        UpdateNoise();
      } else {
        UpdateTone(ch);
      }
    }

    /** `_update_channel` outside noise mode: the key state follows the enable bit and the volumes. */
    method UpdateTone(ch: nat)
      requires Valid() && ch < 4
      modifies this`channels, this`calls
      ensures Valid()
      ensures var r := ToneUpdate(semitones, clockRatio, totalSamples, old(channels)[ch], ch);
        channels == old(channels)[ch := r.ch] && calls == old(calls) + E.Emit(writer, r.out)
    {
      hide KeyOnUpdate, SustainUpdate, E.Emit;
      var state := channels[ch];
      var opmCh := ch + 4;
      var start := calls;
      var pre := if ch == 3 then [Ay.Opm(0x78 + opmCh, 0x7F)] else [];
      E.EmitAppend(writer, [], []);
      if ch == 3 {
        calls := calls + E.Emit(writer, [Ay.Opm(0x78 + opmCh, 0x7F)]);
      }
      assert calls == start + E.Emit(writer, pre);
      var shouldBeOn := state.enabled && (state.volLeft > 0 || state.volRight > 0);
      if shouldBeOn && !state.active {
        KeyOn(ch);
        E.EmitAppend(writer, pre, KeyOnUpdate(semitones, clockRatio, totalSamples, state, opmCh).out);
      } else if !shouldBeOn && state.active {
        channels := channels[ch := state.(active := false)];
        calls := calls + E.Emit(writer, [Ay.Opm(0x08, opmCh)]);
        E.EmitAppend(writer, pre, [Ay.Opm(0x08, opmCh)]);
      } else if shouldBeOn && state.active {
        Sustain(ch);
        E.EmitAppend(writer, pre, SustainUpdate(semitones, clockRatio, totalSamples, state, opmCh).out);
      } else {
        assert pre + [] == pre;
      }
    }

    /** Channel 3 in noise mode. */
    method UpdateNoise()
      requires Valid()
      modifies this`channels, this`calls
      ensures Valid()
      ensures var r := NoiseUpdate(old(channels)[3]);
        channels == old(channels)[3 := r.ch] && calls == old(calls) + E.Emit(writer, r.out)
    {
      hide E.Emit, NoiseFreq;
      var state := channels[3];
      var shouldBeOn := state.enabled && (state.volLeft > 0 || state.volRight > 0);
      var keyOff := [Ay.Opm(0x08, NOISE_CH)];
      calls := calls + E.Emit(writer, keyOff);
      var rest;
      if shouldBeOn {
        var maxVol := if state.volLeft > state.volRight then state.volLeft else state.volRight;
        var pan := PAN_CENTER;
        if state.volLeft == 0 {
          pan := PAN_RIGHT;
        } else if state.volRight == 0 {
          pan := PAN_LEFT;
        }
        assert pan == NoisePan(state) && maxVol % 16 == MaxVol(state);
        var tl := NOISE_VOL_TO_TL[maxVol % 16];
        var nf := NoiseFreq(state.period);
        rest := [Ay.Opm(0x0F, 0x80 + nf), Ay.Opm(0x20 + NOISE_CH, pan + 0x3C), Ay.Opm(0x78 + NOISE_CH, tl), Ay.Opm(0x08, 0x40 + NOISE_CH)];
      } else {
        rest := [Ay.Opm(0x78 + NOISE_CH, 0x7F)];
      }
      assert keyOff + rest == NoiseUpdate(state).out;
      calls := calls + E.Emit(writer, rest);
      E.EmitAppend(writer, keyOff, rest);
      channels := channels[3 := state.(active := shouldBeOn)];
    }

    /** Key-on of a tone channel: abort without a frequency, else the pitch, pan, TL and key-on of both slots. */
    method KeyOn(ch: nat)
      requires Valid() && ch < 4
      modifies this`channels, this`calls
      ensures Valid()
      ensures var r := KeyOnUpdate(semitones, clockRatio, totalSamples, old(channels)[ch], ch + 4);
        channels == old(channels)[ch := r.ch] && calls == old(calls) + E.Emit(writer, r.out)
    {
      hide E.Emit, LevelOut, WsNote, PeriodToFreq;
      var opmCh := ch + 4;
      var state := channels[ch].(active := true, noteOnTime := totalSamples);
      channels := channels[ch := state];
      var freq := PeriodToFreq(state.period);
      if freq == 0.0 {
        channels := channels[ch := state.(active := false)];
        E.EmitAppend(writer, [], []);
        return;
      }
      var n := WsNote(semitones, freq, clockRatio);
      state := state.(lastKc := n.kc, lastKf := n.kf);
      channels := channels[ch := state];
      var pitch := [Ay.Opm(0x28 + opmCh, state.lastKc), Ay.Opm(0x30 + opmCh, state.lastKf * 4)];
      calls := calls + E.Emit(writer, pitch);
      SendLevels(ch);
      var keyOn := [Ay.Opm(0x08, 0x18 + opmCh)];
      calls := calls + E.Emit(writer, keyOn);
      E.EmitAppend(writer, pitch, LevelOut(state, opmCh));
      E.EmitAppend(writer, pitch + LevelOut(state, opmCh), keyOn);
      LevelOutOfVolumes(state, old(channels)[ch], opmCh);
    }

    /** A sounding note: the pitch, if the delay has run out and it changed, then the pan and the TL. */
    method Sustain(ch: nat)
      requires Valid() && ch < 4
      modifies this`channels, this`calls
      ensures Valid()
      ensures var r := SustainUpdate(semitones, clockRatio, totalSamples, old(channels)[ch], ch + 4);
        channels == old(channels)[ch := r.ch] && calls == old(calls) + E.Emit(writer, r.out)
    {
      hide E.Emit, LevelOut, WsNote, PeriodToFreq;
      var opmCh := ch + 4;
      var state := channels[ch];
      var pitch: seq<Ay.OpmCall> := [];
      E.EmitAppend(writer, [], []);
      if totalSamples >= (state.noteOnTime + VIBRATO_DELAY) % U32_SIZE {
        var freq := PeriodToFreq(state.period);
        if freq > 0.0 {
          var n := WsNote(semitones, freq, clockRatio);
          if n.kc != state.lastKc || n.kf != state.lastKf {
            channels := channels[ch := state.(lastKc := n.kc, lastKf := n.kf)];
            pitch := [Ay.Opm(0x28 + opmCh, n.kc), Ay.Opm(0x30 + opmCh, n.kf * 4)];
            calls := calls + E.Emit(writer, pitch);
          }
        }
      }
      SendLevels(ch);
      E.EmitAppend(writer, pitch, LevelOut(state, opmCh));
      LevelOutOfVolumes(channels[ch], state, opmCh);
      assert [] + LevelOut(state, opmCh) == LevelOut(state, opmCh);
    }

    /** The pan and TL of a sounding tone. */
    method SendLevels(ch: nat)
      requires Valid() && ch < 4
      modifies this`calls
      ensures calls == old(calls) + E.Emit(writer, LevelOut(channels[ch], ch + 4))
    {
      var state := channels[ch];
      var opmCh := ch + 4;
      var totalVol := state.volLeft + state.volRight;
      var pan := PAN_CENTER;
      if totalVol > 0 {
        if state.volLeft == 0 {
          pan := PAN_RIGHT;
        } else if state.volRight == 0 {
          pan := PAN_LEFT;
        }
      }
      assert pan == TonePan(state);
      calls := calls + E.Emit(writer, [Ay.Opm(0x20 + opmCh, pan + 0x3C)]);
      var maxVol := if state.volLeft > state.volRight then state.volLeft else state.volRight;
      assert maxVol % 16 == MaxVol(state);
      calls := calls + E.Emit(writer, [Ay.Opm(0x70 + opmCh, VOL_TO_TL[maxVol % 16])]);
    }
  }

  // ------------------------------------------------------------ properties

  /** The noise frequency never rises with the period: a longer period gives an equal or lower noise. */
  lemma NoiseFreqMonotone(p1: nat, p2: nat)
    requires p1 <= p2
    ensures NoiseFreq(p1) <= NoiseFreq(p2)
  {
  }

  /**
   * A tone is panned to one side exactly when the other side is silent and
   * it is not; otherwise it is centred. For a channel that should sound the
   * noise is panned the same way.
   */
  lemma PanRules(c: Channel)
    ensures TonePan(c) == PAN_LEFT <==> c.volRight == 0 && c.volLeft > 0
    ensures TonePan(c) == PAN_RIGHT <==> c.volLeft == 0 && c.volRight > 0
    ensures TonePan(c) == PAN_CENTER <==> (c.volLeft == 0) == (c.volRight == 0)
    ensures ShouldBeOn(c) ==> NoisePan(c) == TonePan(c)
  {
  }

  /** The writes of an update that land on register `addr`. */
  predicate Writes(out: seq<Ay.OpmCall>, addr: byte)
  {
    exists i :: 0 <= i < |out| && out[i].Opm? && out[i].addr == addr
  }

  /**
   * Key events of a tone channel: it is keyed on (both slots) exactly when it
   * should sound, was silent and has a period below 2048, and keyed off
   * exactly when it was sounding and should not be. Afterwards it is active
   * exactly when it should sound and either was sounding or had a frequency:
   * a key-on without a frequency leaves it silent.
   */
  lemma ToneKeyEvents(semitones: OpmPitch.Semitones, clockRatio: real, total: u32, regs: seq<byte>, c: Channel, ch: nat)
    requires |regs| == 32 && ChannelGood(c) && ch < 4 && !NoiseMode(regs, ch)
    ensures var r := ChannelUpdate(semitones, clockRatio, total, regs, c, ch);
      (Ay.Opm(0x08, 0x18 + ch + 4) in r.out <==> ShouldBeOn(c) && !c.active && c.period < 2048) &&
      (Ay.Opm(0x08, ch + 4) in r.out <==> !ShouldBeOn(c) && c.active) &&
      (r.ch.active <==> ShouldBeOn(c) && (c.active || c.period < 2048))
  {
    hide NoiseUpdate;
    var opmCh := ch + 4;
    var pre := if ch == 3 then [Ay.Opm(0x78 + opmCh, 0x7F)] else [];
    var on := ShouldBeOn(c);
    if on && !c.active && c.period < 2048 {
      var k := KeyOnUpdate(semitones, clockRatio, total, c, opmCh);
      var n := WsNote(semitones, PeriodToFreq(c.period), clockRatio);
      assert k.out == [Ay.Opm(0x28 + opmCh, n.kc), Ay.Opm(0x30 + opmCh, n.kf * 4)] + LevelOut(c, opmCh) + [Ay.Opm(0x08, 0x18 + opmCh)];
      assert (pre + k.out)[|pre + k.out| - 1] == Ay.Opm(0x08, 0x18 + opmCh);
    } else if on && c.active {
      var s := SustainUpdate(semitones, clockRatio, total, c, opmCh);
      assert forall w :: w in s.out ==> w.addr != 0x08;
    }
  }

  /**
   * Channel 3 in noise mode keys the tone part of channel 7 off, and is
   * afterwards active exactly when it should sound; the noise is keyed on,
   * with its frequency, pan and TL, exactly then, and muted otherwise.
   */
  lemma NoiseKeyEvents(semitones: OpmPitch.Semitones, clockRatio: real, total: u32, regs: seq<byte>, c: Channel, ch: nat)
    requires |regs| == 32 && ChannelGood(c) && ch < 4 && NoiseMode(regs, ch)
    ensures var r := ChannelUpdate(semitones, clockRatio, total, regs, c, ch);
      r.out[0] == Ay.Opm(0x08, NOISE_CH) && r.ch.active == ShouldBeOn(c) &&
      (Ay.Opm(0x08, 0x40 + NOISE_CH) in r.out <==> ShouldBeOn(c)) &&
      (Writes(r.out, 0x0F) <==> ShouldBeOn(c)) &&
      (!ShouldBeOn(c) ==> r.out == [Ay.Opm(0x08, NOISE_CH), Ay.Opm(0x78 + NOISE_CH, 0x7F)])
  {
    var r := ChannelUpdate(semitones, clockRatio, total, regs, c, ch);
    if ShouldBeOn(c) {
      assert r.out[1].addr == 0x0F;
    }
  }

  /** Only channel 3, and only in noise mode, sets the noise frequency. */
  lemma OnlyChannel3Noise(semitones: OpmPitch.Semitones, clockRatio: real, total: u32, regs: seq<byte>, c: Channel, ch: nat)
    requires |regs| == 32 && ChannelGood(c) && ch < 4
    ensures Writes(ChannelUpdate(semitones, clockRatio, total, regs, c, ch).out, 0x0F) ==> ch == 3 && regs[0x10] >= 0x80
  {
    if !NoiseMode(regs, ch) {
      var r := ChannelUpdate(semitones, clockRatio, total, regs, c, ch);
      var opmCh := ch + 4;
      var on := ShouldBeOn(c);
      var pre := if ch == 3 then [Ay.Opm(0x78 + opmCh, 0x7F)] else [];
      if on && !c.active {
        var k := KeyOnUpdate(semitones, clockRatio, total, c, opmCh);
        assert forall w :: w in k.out ==> w.addr != 0x0F;
        assert r.out == pre + k.out;
      } else if on && c.active {
        var s := SustainUpdate(semitones, clockRatio, total, c, opmCh);
        assert forall w :: w in s.out ==> w.addr != 0x0F;
        assert r.out == pre + s.out;
      }
      assert forall w :: w in r.out ==> w.addr != 0x0F;
    }
  }

  /**
   * The pitch of a sounding tone is resent exactly when the delay has run
   * out, its period is below 2048, and its note differs from the last one
   * sent; the new note is then remembered.
   */
  lemma PitchResend(semitones: OpmPitch.Semitones, clockRatio: real, total: u32, regs: seq<byte>, c: Channel, ch: nat)
    requires |regs| == 32 && ChannelGood(c) && ch < 4 && !NoiseMode(regs, ch) && ShouldBeOn(c) && c.active
    ensures var r := ChannelUpdate(semitones, clockRatio, total, regs, c, ch);
      var n := WsNote(semitones, PeriodToFreq(c.period), clockRatio);
      var resend := BendDue(total, c.noteOnTime) && c.period < 2048 && (n.kc != c.lastKc || n.kf != c.lastKf);
      (Writes(r.out, 0x28 + ch + 4) <==> resend) &&
      (resend ==> r.ch.lastKc == n.kc && r.ch.lastKf == n.kf) && (!resend ==> r.ch == c)
  {
    var r := ChannelUpdate(semitones, clockRatio, total, regs, c, ch);
    var opmCh := ch + 4;
    var pre := if ch == 3 then [Ay.Opm(0x78 + opmCh, 0x7F)] else [];
    var s := SustainUpdate(semitones, clockRatio, total, c, opmCh);
    assert r.out == pre + s.out;
    if Writes(r.out, 0x28 + opmCh) {
      var i :| 0 <= i < |r.out| && r.out[i].Opm? && r.out[i].addr == 0x28 + opmCh;
      assert r.out[i] in s.out;
    } else {
      assert r.out[|pre|].addr != 0x28 + opmCh;
    }
  }

  /**
   * The pitch-bend delay: while the start plus 4410 fits in 32 bits the pitch
   * is followed from 4410 samples after the start; a note started within 4410
   * samples of the counter's wrap is followed at once.
   */
  lemma BendDelay(total: u32, start: u32)
    ensures start + VIBRATO_DELAY < U32_SIZE ==> (BendDue(total, start) <==> total >= start + VIBRATO_DELAY)
    ensures start + VIBRATO_DELAY >= U32_SIZE ==> (BendDue(total, start) <==> total >= start + VIBRATO_DELAY - U32_SIZE)
    ensures start + VIBRATO_DELAY >= U32_SIZE && total == start ==> BendDue(total, start)
  {
  }

  /** Updating channels keeps every channel's period, volumes and enable bit, and touches only the channels updated. */
  lemma {:induction false} UpdateAllKeeps(semitones: OpmPitch.Semitones, clockRatio: real, total: u32, regs: seq<byte>, chans: seq<Channel>, n: nat)
    requires |regs| == 32 && ChannelsGood(chans) && n <= NUM_CHANNELS
    ensures var r := UpdateAll(semitones, clockRatio, total, regs, chans, n).chans;
      forall j :: 0 <= j < NUM_CHANNELS ==>
        r[j].period == chans[j].period && r[j].volLeft == chans[j].volLeft && r[j].volRight == chans[j].volRight &&
        r[j].enabled == chans[j].enabled && (j >= n ==> r[j] == chans[j])
  {
    if n > 0 {
      UpdateAllKeeps(semitones, clockRatio, total, regs, chans, n - 1);
    }
  }

  /**
   * What a register write does to the channel states: a frequency register
   * sets its channel's period, a volume register its right (low nibble) and
   * left (high nibble) volumes, the channel-control register every enable
   * bit; every other register changes no channel and sends nothing, and no
   * write changes another channel's period, volumes or enable bit.
   */
  lemma WriteStepRegisters(semitones: OpmPitch.Semitones, clockRatio: real, total: u32, regs: seq<byte>, chans: seq<Channel>, addr: nat, data: byte)
    requires |regs| == 32 && ChannelsGood(chans) && addr < 32
    ensures var r := WriteStep(semitones, clockRatio, total, regs, chans, addr, data).chans;
      (addr <= 7 ==> (r[addr / 2].period == PeriodOf(regs[addr / 2 * 2 + 1], regs[addr / 2 * 2]) &&
        forall j :: 0 <= j < NUM_CHANNELS && j != addr / 2 ==> r[j] == chans[j])) &&
      (8 <= addr <= 0x0B ==> (r[addr - 8].volRight == data % 16 && r[addr - 8].volLeft == data / 16 &&
        forall j :: 0 <= j < NUM_CHANNELS && j != addr - 8 ==> r[j] == chans[j])) &&
      (addr == 0x10 ==> forall j :: 0 <= j < NUM_CHANNELS ==>
        r[j].enabled == ((data / Ay.Pow2(j)) % 2 == 1) && r[j].period == chans[j].period &&
        r[j].volLeft == chans[j].volLeft && r[j].volRight == chans[j].volRight) &&
      (addr != 0x10 ==> forall j :: 0 <= j < NUM_CHANNELS ==> r[j].enabled == chans[j].enabled) &&
      (8 <= addr <= 0x0B || addr == 0x0E ==> forall j :: 0 <= j < NUM_CHANNELS ==> r[j].period == chans[j].period) &&
      (addr in {0x0C, 0x0D, 0x0F} || addr > 0x10 ==> WriteStep(semitones, clockRatio, total, regs, chans, addr, data) == Updates(chans, []))
  {
    if addr == 0x10 {
      UpdateAllKeeps(semitones, clockRatio, total, regs, Enabled(chans, data), NUM_CHANNELS);
    }
  }
}
