// The v0.87 SN76489-to-AY8910 converter: the SN76489's latch/data byte
// protocol kept in a shadow of its four channels, and the AY8910 register
// writes it passes on to the AY-to-OPM transcoder. Channel 2 of the AY
// carries both SN tone 2 and the SN noise channel.

module V0087SnToAy {
  import opened Bytes
  import opened ChipType

  /** A call into the next converter of the chain: its init, or an AY register write. */
  datatype AyCall = AyInit(chip: Chip, clock: u32) | AyWrite(addr: byte, data: byte)

  /** SN attenuation (0 loudest, 15 silent) to AY volume. */
  const VOLTBL: seq<byte> := [15, 14, 14, 13, 12, 12, 11, 10, 10, 9, 8, 8, 7, 6, 6, 0]

  /** The AY noise periods of the three fixed SN noise rates. */
  const NOISE_PITCH: seq<byte> := [7, 15, 31]

  /** `_mixChannel`: the AY channel shared by SN tone 2 and the SN noise. */
  const MIX_CHANNEL: nat := 2

  /**
   * The converter's statics: the four 10-bit frequencies (noise has none),
   * the latched channel and register type (0 frequency, 1 attenuation), the
   * four attenuations, and the noise mode.
   */
  datatype Shadow = Shadow(freq: seq<nat>, ch: nat, kind: nat, atts: seq<nat>, periodic: bool, noiseFreq: nat)

  predicate Good(s: Shadow)
  {
    |s.freq| == 4 && |s.atts| == 4 && s.ch < 4 && s.kind < 2 && s.noiseFreq < 4 &&
    (forall i :: 0 <= i < 4 ==> s.freq[i] < 1024) && (forall i :: 0 <= i < 4 ==> s.atts[i] < 16)
  }

  /** The AY mixer bit of a tone channel. */
  function ToneBit(ch: nat): (b: nat)
    requires ch < 3
    ensures b == 1 || b == 2 || b == 4
  {
    if ch == 0 then 1 else if ch == 1 then 2 else 4
  }

  // --------------------------------------------------------------- output

  /**
   * `_updateSharedChannel`: the mixer and the volume of the shared channel.
   * A sounding noise takes the channel from a sounding tone; the volume is
   * that of whichever of the two is heard.
   */
  function SharedOut(atts: seq<nat>): (out: seq<AyCall>)
    requires |atts| == 4 && forall i :: 0 <= i < 4 ==> atts[i] < 16
    ensures |out| == 2 && out[0].AyWrite? && out[0].addr == 7 && out[1].AyWrite? && out[1].addr == 8 + MIX_CHANNEL
  {
    var enableNoise := atts[3] != 15;
    var enableTone := atts[MIX_CHANNEL] != 15 && !enableNoise;
    var att := if enableTone then atts[MIX_CHANNEL] else if enableNoise then atts[3] else atts[MIX_CHANNEL];
    var toneMask := if enableTone then 0 else ToneBit(MIX_CHANNEL);
    var noiseMask := if enableNoise then 7 - ToneBit(MIX_CHANNEL) else 7;
    [AyWrite(7, noiseMask * 8 + toneMask), AyWrite(8 + MIX_CHANNEL, VOLTBL[att])]
  }

  /** `_updateAttenuation`'s output: the shared channel for channels 2 and 3, otherwise the channel's volume. */
  function AttOut(atts: seq<nat>, ch: nat): (out: seq<AyCall>)
    requires |atts| == 4 && ch < 4 && forall i :: 0 <= i < 4 ==> atts[i] < 16
  {
    if ch == MIX_CHANNEL || ch == 3 then SharedOut(atts) else [AyWrite(8 + ch, VOLTBL[atts[ch]])]
  }

  /** `_updateFreq`: a tone channel's 12-bit AY period, low byte then high nibble; nothing for the noise channel. */
  function FreqOut(freq: seq<nat>, ch: nat): (out: seq<AyCall>)
    requires |freq| == 4 && ch < 4
  {
    if ch < 3 then [AyWrite(2 * ch, freq[ch] % 256), AyWrite(2 * ch + 1, (freq[ch] / 256) % 16)] else []
  }

  /** The noise period `_updateNoise` sends: a fixed rate, or tone 2's frequency for rate 3. */
  function NoisePeriod(freq2: nat, data: byte): (p: byte)
    ensures p < 32
  {
    if data % 4 == 3 then freq2 % 32 else NOISE_PITCH[data % 4]
  }

  // ---------------------------------------------------------------- write

  /** The shadow after `sn_to_ay_write_reg(data)`. */
  function Next(s: Shadow, data: byte): (t: Shadow)
    requires Good(s)
    ensures Good(t)
    ensures t.freq[3] == s.freq[3]
  {
    if data >= 0x80 then
      var ch := (data / 32) % 4;
      var kind := (data / 16) % 2;
      if kind == 1 then s.(ch := ch, kind := kind, atts := s.atts[ch := data % 16])
      else if ch < 3 then s.(ch := ch, kind := kind, freq := s.freq[ch := ((s.freq[ch] / 16) % 64) * 16 + data % 16])
      else s.(ch := ch, kind := kind, periodic := (data / 4) % 2 == 0, noiseFreq := data % 4)
    else if s.kind == 0 && s.ch < 3 then
      s.(freq := s.freq[s.ch := (data % 64) * 16 + s.freq[s.ch] % 16])
    else s
  }

  /** The AY calls `sn_to_ay_write_reg(data)` makes. */
  function Out(s: Shadow, data: byte): (out: seq<AyCall>)
    requires Good(s)
  {
    var t := Next(s, data);
    if data >= 0x80 then
      if t.kind == 1 then AttOut(t.atts, t.ch)
      else if t.ch < 3 then FreqOut(t.freq, t.ch)
      else SharedOut(t.atts) + [AyWrite(6, NoisePeriod(t.freq[2], data))] + FreqOut(t.freq, t.ch)
    else if s.kind == 0 && s.ch < 3 then FreqOut(t.freq, t.ch)
    else []
  }

  class Converter {
    var freq: seq<nat>
    var ch: nat
    var kind: nat
    var atts: seq<nat>
    var periodic: bool
    var noiseFreq: nat
    /** Every call made into the AY-to-OPM transcoder so far. */
    var calls: seq<AyCall>

    function State(): Shadow
      reads this
    {
      Shadow(freq, ch, kind, atts, periodic, noiseFreq)
    }

    predicate Valid()
      reads this
    {
      Good(State())
    }

    /** The statics before any call: `_freq` and `_atts` zero, no latch. */
    constructor ()
      ensures Valid() && calls == []
    {
      freq := [0, 0, 0, 0];
      ch := 0;
      kind := 0;
      atts := [0, 0, 0, 0];
      periodic := false;
      noiseFreq := 0;
      calls := [];
    }

    /**
     * `sn_to_ay_init`: clears the frequencies and the latch, silences all
     * four channels, initialises the AY-to-OPM transcoder for an AY8910 and
     * writes the AY mixer with the three tones on and the noise off.
     */
    method Init()
      modifies this
      ensures Valid()
      ensures State() == Shadow([0, 0, 0, 0], 0, 0, [15, 15, 15, 15], false, 0)
      ensures calls == old(calls) + [AyInit(AY8910, 1789773), AyWrite(7, 0x38)]
    {
      freq := [0, 0, 0, 0];
      ch := 0;
      kind := 0;
      atts := [15, 15, 15, 15];
      periodic := false;
      noiseFreq := 0;
      calls := calls + [AyInit(AY8910, 1789773)];
      calls := calls + [AyWrite(7, 0x38)];
    }

    method UpdateSharedChannel()
      requires Valid()
      modifies this`calls
      ensures calls == old(calls) + SharedOut(atts)
    {
      var noiseChannel := MIX_CHANNEL;
      var enableTone := atts[noiseChannel] != 15;
      var enableNoise := atts[3] != 15;
      if enableTone && enableNoise {
        enableTone := false;
      }
      var att;
      if enableTone {
        att := atts[noiseChannel];
      } else if enableNoise {
        att := atts[3];
      } else {
        att := atts[noiseChannel];
      }
      var toneMask := if enableTone then 0 else ToneBit(noiseChannel);
      var noiseMask := if enableNoise then 7 - ToneBit(noiseChannel) else 7;
      calls := calls + [AyWrite(7, noiseMask * 8 + toneMask)];
      calls := calls + [AyWrite(8 + noiseChannel, VOLTBL[att])];
    }

    method UpdateAttenuation(c: nat, rawAtt: byte)
      requires Valid() && c < 4
      modifies this`atts, this`calls
      ensures Valid()
      ensures atts == old(atts)[c := rawAtt % 16]
      ensures calls == old(calls) + AttOut(atts, c)
    {
      atts := atts[c := rawAtt % 16];
      if c == MIX_CHANNEL || c == 3 {
        UpdateSharedChannel();
      } else if c < 3 {
        calls := calls + [AyWrite(8 + c, VOLTBL[atts[c]])];
      }
    }

    method UpdateNoise(data: byte)
      requires Valid()
      modifies this`periodic, this`noiseFreq, this`calls
      ensures Valid()
      ensures periodic == ((data / 4) % 2 == 0) && noiseFreq == data % 4
      ensures calls == old(calls) + SharedOut(atts) + [AyWrite(6, NoisePeriod(freq[2], data))]
    {
      periodic := (data / 4) % 2 == 0;
      noiseFreq := data % 4;
      UpdateSharedChannel();
      if data % 4 == 3 {
        calls := calls + [AyWrite(6, freq[2] % 32)];
      } else {
        calls := calls + [AyWrite(6, NOISE_PITCH[data % 4])];
      }
    }

    method UpdateFreq(c: nat)
      requires Valid() && c < 4
      modifies this`calls
      ensures calls == old(calls) + FreqOut(freq, c)
    {
      if c < 3 {
        var f := freq[c];
        calls := calls + [AyWrite(2 * c, f % 256)];
        calls := calls + [AyWrite(2 * c + 1, (f / 256) % 16)];
      }
    }

    /**
     * `sn_to_ay_write_reg`: a latch byte (bit 7 set) latches a channel and a
     * register type and sets an attenuation, the low four frequency bits or
     * the noise mode; a data byte sets the upper six frequency bits of a
     * latched tone and is ignored otherwise.
     */
    method WriteReg(data: byte)
      requires Valid()
      modifies this
      ensures Valid()
      ensures State() == Next(old(State()), data)
      ensures calls == old(calls) + Out(old(State()), data)
    {
      if data >= 0x80 {
        Latch(data);
      } else if kind == 0 && ch < 3 {
        freq := freq[ch := (data % 64) * 16 + freq[ch] % 16];
        UpdateFreq(ch);
      }
    }

    /** The latch half of `sn_to_ay_write_reg`. */
    method Latch(data: byte)
      requires Valid() && data >= 0x80
      modifies this
      ensures Valid()
      ensures State() == Next(old(State()), data)
      ensures calls == old(calls) + Out(old(State()), data)
    {
      if (data / 16) % 2 == 1 {
        LatchAttenuation(data);
      } else if (data / 32) % 4 < 3 {
        LatchTone(data);
      } else {
        LatchNoise(data);
      }
    }

    method LatchAttenuation(data: byte)
      requires Valid() && data >= 0x80 && (data / 16) % 2 == 1
      modifies this
      ensures Valid()
      ensures State() == Next(old(State()), data)
      ensures calls == old(calls) + Out(old(State()), data)
    {
      ch := (data / 32) % 4;
      kind := 1;
      UpdateAttenuation(ch, data % 16);
    }

    method LatchTone(data: byte)
      requires Valid() && data >= 0x80 && (data / 16) % 2 == 0 && (data / 32) % 4 < 3
      modifies this
      ensures Valid()
      ensures State() == Next(old(State()), data)
      ensures calls == old(calls) + Out(old(State()), data)
    {
      ch := (data / 32) % 4;
      kind := 0;
      freq := freq[ch := ((freq[ch] / 16) % 64) * 16 + data % 16];
      UpdateFreq(ch);
    }

    method LatchNoise(data: byte)
      requires Valid() && data >= 0x80 && (data / 16) % 2 == 0 && (data / 32) % 4 == 3
      modifies this
      ensures Valid()
      ensures State() == Next(old(State()), data)
      ensures calls == old(calls) + Out(old(State()), data)
    {
      ch := 3;
      kind := 0;
      UpdateNoise(data);
      UpdateFreq(ch);
    }
  }

  // ----------------------------------------------------------- properties

  /** The two bytes an SN76489 writer sends to set tone channel `ch` to the 10-bit value `f`. */
  function ToneBytes(ch: nat, f: nat): (b: seq<byte>)
    requires ch < 3 && f < 1024
    ensures |b| == 2 && b[0] >= 0x80 && b[1] < 0x80
  {
    [0x80 + ch * 32 + f % 16, f / 16]
  }

  /**
   * A full tone write (latch with the low four bits, then a data byte with
   * the upper six) leaves exactly that value in the channel's frequency, and
   * the data byte sends it on as the AY channel's 12-bit tone period.
   */
  lemma ToneRoundTrip(s: Shadow, ch: nat, f: nat)
    requires Good(s) && ch < 3 && f < 1024
    ensures var b := ToneBytes(ch, f);
      var s1 := Next(s, b[0]);
      var s2 := Next(s1, b[1]);
      s2.freq[ch] == f && s2.ch == ch && s2.kind == 0 &&
      Out(s1, b[1]) == [AyWrite(2 * ch, f % 256), AyWrite(2 * ch + 1, f / 256)] &&
      (forall i :: 0 <= i < 4 && i != ch ==> s2.freq[i] == s.freq[i])
  {
    hide Next, Out, ToneBytes;
    var b := ToneBytes(ch, f);
    var lo := f % 16;
    var hi := f / 16;
    ToneBytesFields(ch, f);
    NextToneLatch(s, b[0]);
    var s1 := Next(s, b[0]);
    var mid := ((s.freq[ch] / 16) % 64) * 16 + lo;
    assert s1.freq[ch] == mid && s1.ch == ch && s1.kind == 0;
    LowNibble((s.freq[ch] / 16) % 64, lo);
    TenBits(f);
    NextToneData(s1, b[1]);
    var s2 := Next(s1, b[1]);
    assert s2.freq[ch] == (hi % 64) * 16 + mid % 16 == f;
    assert Out(s1, b[1]) == [AyWrite(2 * ch, f % 256), AyWrite(2 * ch + 1, (f / 256) % 16)];
  }

  /** A 10-bit value split into its low nibble and upper six bits, and its top two bits. */
  lemma TenBits(f: nat)
    requires f < 1024
    ensures f / 16 < 64 && (f / 16) * 16 + f % 16 == f && (f / 256) % 16 == f / 256
  {
  }

  /** The fields of the two tone bytes: channel, latch kind and low nibble, then the upper six bits. */
  lemma ToneBytesFields(ch: nat, f: nat)
    requires ch < 3 && f < 1024
    ensures var b := ToneBytes(ch, f);
      (b[0] / 32) % 4 == ch && (b[0] / 16) % 2 == 0 && b[0] % 16 == f % 16 && b[1] == f / 16
  {
    var b := ToneBytes(ch, f);
    assert b[0] == 0x80 + ch * 32 + f % 16;
    if ch == 0 {} else if ch == 1 {} else {}
  }

  /** A latch byte for the frequency of a tone channel. */
  lemma NextToneLatch(s: Shadow, data: byte)
    requires Good(s) && data >= 0x80 && (data / 16) % 2 == 0 && (data / 32) % 4 < 3
    ensures var ch := (data / 32) % 4;
      Next(s, data) == s.(ch := ch, kind := 0, freq := s.freq[ch := ((s.freq[ch] / 16) % 64) * 16 + data % 16])
  {
  }

  /** A data byte after a tone latch: the upper six bits of that channel's frequency, sent on. */
  lemma NextToneData(s: Shadow, data: byte)
    requires Good(s) && data < 0x80 && s.kind == 0 && s.ch < 3
    ensures Next(s, data) == s.(freq := s.freq[s.ch := (data % 64) * 16 + s.freq[s.ch] % 16])
    ensures Out(s, data) == FreqOut(Next(s, data).freq, s.ch)
  {
  }

  lemma LowNibble(q: nat, lo: nat)
    requires lo < 16
    ensures (q * 16 + lo) % 16 == lo && (q * 16 + lo) / 16 == q
  {
  }

  /** A data byte after an attenuation or a noise latch changes nothing and sends nothing. */
  lemma StrayDataIgnored(s: Shadow, data: byte)
    requires Good(s) && data < 0x80 && (s.kind == 1 || s.ch == 3)
    ensures Next(s, data) == s && Out(s, data) == []
  {
  }

  /**
   * An attenuation latch stores the attenuation of its channel; for tone
   * channels 0 and 1 it sends the volume from the table, which is 0 for a
   * silenced channel.
   */
  lemma AttenuationLatch(s: Shadow, ch: nat, a: nat)
    requires Good(s) && ch < 4 && a < 16
    ensures var data := 0x90 + ch * 32 + a;
      var t := Next(s, data);
      t.atts[ch] == a && t.ch == ch && t.kind == 1 &&
      (ch < 2 ==> Out(s, data) == [AyWrite(8 + ch, VOLTBL[a])]) &&
      (ch >= 2 ==> Out(s, data) == SharedOut(t.atts))
  {
    var data := 0x90 + ch * 32 + a;
    assert (data / 32) % 4 == ch && (data / 16) % 2 == 1 && data % 16 == a;
  }

  /** A louder attenuation never gives a quieter AY volume, and only the silent attenuation gives volume 0. */
  lemma VolumeMonotone(a1: nat, a2: nat)
    requires a1 <= a2 < 16
    ensures VOLTBL[a1] >= VOLTBL[a2]
    ensures VOLTBL[a2] == 0 <==> a2 == 15
  {
  }

  /**
   * The mixer of the shared channel: channels 0 and 1 always play tone
   * without noise; when tone 2 and the noise are both heard the noise wins
   * the channel, with the noise's volume; a silent noise leaves the tone;
   * and with both silent the channel plays nothing at volume 0.
   */
  lemma SharedChannelMix(atts: seq<nat>)
    requires |atts| == 4 && forall i :: 0 <= i < 4 ==> atts[i] < 16
    ensures var out := SharedOut(atts);
      var mixer := out[0].data;
      mixer % 4 == 0 && (mixer / 8) % 4 == 3 &&
      (atts[3] != 15 ==> mixer == 0x1C && out[1].data == VOLTBL[atts[3]]) &&
      (atts[3] == 15 && atts[2] != 15 ==> mixer == 0x38 && out[1].data == VOLTBL[atts[2]]) &&
      (atts[3] == 15 && atts[2] == 15 ==> mixer == 0x3C && out[1].data == 0)
  {
  }

  /**
   * A noise latch sets the noise mode and sends the shared channel's mixer
   * and volume, then the AY noise period: 7, 15 or 31 for the fixed rates
   * and tone 2's frequency (its low five bits) for rate 3.
   */
  lemma NoiseLatch(s: Shadow, data: byte)
    requires Good(s) && data >= 0x80 && (data / 32) % 4 == 3 && (data / 16) % 2 == 0
    ensures var t := Next(s, data);
      t.periodic == ((data / 4) % 2 == 0) && t.noiseFreq == data % 4 && t.freq == s.freq &&
      Out(s, data) == SharedOut(s.atts) + [AyWrite(6, if data % 4 == 3 then s.freq[2] % 32 else NOISE_PITCH[data % 4])]
  {
  }
}
