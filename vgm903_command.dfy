// `vgm_process_command` of v0.903/console_player/vgm.c: one VGM command read
// from the stream, routed to a chip or a transcoder, and its wait returned.

module V0903VgmCommand {
  import opened Bytes
  import opened ChipType

  /** The globals the command reads: conversion switches, the header's loop field and the options. */
  datatype Config = Config(
    snToAy: bool,          // `g_sn_to_ay_conversion_enabled`
    ayToOpm: bool,         // `g_ay_to_opm_conversion_enabled`
    opnToOpm: bool,        // `g_opn_to_opm_conversion_enabled`
    chip: Chip,            // `g_vgm_chip_type`
    loopOffset: u32,       // `g_vgm_header.loop_offset`
    loopCount: int,        // `g_vgm_loop_count`, 0 for endless
    flushMode: int)        // `g_flush_mode`

  /**
   * A call the command makes. A direct chip write goes to the slot the
   * configuration gives that chip; the model records the chip.
   */
  datatype Call =
    | SnToAy(data: byte)                                   // `sn_to_ay_write_reg`
    | AyToOpm(addr: byte, data: byte)                      // `ay_to_opm_write_reg`
    | OpnToOpm(addr: byte, data: byte, port: nat)          // `opn_to_opm_write_reg`
    | ChipData(chip: Chip, data: byte)                     // `sn76489_write_reg`
    | ChipWrite(chip: Chip, port: nat, addr: byte, data: byte)  // `<chip>_write_reg`
    | Flush                                                // `spfm_flush`

  /**
   * The effect of one command: the samples to wait, the stream position
   * after it, whether `g_is_playing` is cleared, the new loop counter and the
   * calls made, in order.
   */
  datatype Outcome = Outcome(wait: int, next: nat, stop: bool, counter: int, calls: seq<Call>)

  /** The operand bytes an opcode reads before acting. */
  function Operands(op: byte): (n: nat)
    ensures n <= 2
  {
    if op == 0x50 then 1
    else if op == 0xA0 || 0x52 <= op <= 0x57 || op == 0x61 then 2
    else 0
  }

  /** Whether the 0x66 command jumps back to the loop point. */
  predicate Loops(cfg: Config, counter: int)
  {
    cfg.loopOffset > 0 && (counter < cfg.loopCount || cfg.loopCount == 0)
  }

  /** The chip call made by a register-write opcode with its operands. */
  function WriteCall(cfg: Config, op: byte, d1: byte, d2: byte): (c: Call)
    requires op == 0x50 || op == 0xA0 || 0x52 <= op <= 0x57
  {
    if op == 0x50 then (if cfg.snToAy then SnToAy(d1) else ChipData(SN76489, d1))
    else if op == 0xA0 then (if cfg.ayToOpm then AyToOpm(d1, d2) else ChipWrite(AY8910, 0, d1, d2))
    else if op == 0x54 then ChipWrite(YM2151, 0, d1, d2)
    else if op == 0x52 || op == 0x53 then
      var port := if op == 0x52 then 0 else 1;
      if cfg.opnToOpm && cfg.chip == YM2612 then OpnToOpm(d1, d2, port) else ChipWrite(YM2612, port, d1, d2)
    else if op == 0x55 then
      if cfg.opnToOpm && cfg.chip == YM2203 then OpnToOpm(d1, d2, 0) else ChipWrite(YM2203, 0, d1, d2)
    else
      var port := if op == 0x56 then 0 else 1;
      if cfg.opnToOpm && cfg.chip == YM2608 then OpnToOpm(d1, d2, port) else ChipWrite(YM2608, port, d1, d2)
  }

  /** The flush `g_flush_mode == 2` adds after every command that was read in full. */
  function FlushTail(cfg: Config): (t: seq<Call>)
  {
    if cfg.flushMode == 2 then [Flush] else []
  }

  /**
   * What an opcode does once its operands `args` were read in full; `next`
   * is the stream position after them. The flush of flush mode 2 is not
   * part of it.
   */
  function Act(cfg: Config, op: byte, args: seq<byte>, next: nat, wait1: int, wait2: int, counter: int): (o: Outcome)
    requires |args| == Operands(op)
  {
    if op == 0x61 then Outcome(args[0] as int + args[1] as int * 0x100, next, false, counter, [])
    else if |args| > 0 then
      var d2 := if |args| == 2 then args[1] else 0;
      Outcome(0, next, false, counter, [WriteCall(cfg, op, args[0], d2)])
    else if op == 0x62 then Outcome(wait1, next, false, counter, [])
    else if op == 0x63 then Outcome(wait2, next, false, counter, [])
    else if op == 0x66 then
      if Loops(cfg, counter) then Outcome(0, cfg.loopOffset, false, counter + 1, [])
      else Outcome(0, next, true, counter, [])
    else if 0x70 <= op <= 0x7F then Outcome(op % 0x10 + 1, next, false, counter, [])
    else Outcome(0, next, false, counter, [])
  }

  /**
   * `vgm_process_command` on the bytes of the stream from `pos`. A read that
   * comes up short clears `g_is_playing` and returns 0 at once, without the
   * flush; the stream has moved past whatever was read.
   */
  function Command(cfg: Config, data: seq<byte>, pos: nat, wait1: int, wait2: int, counter: int): (o: Outcome)
  {
    if pos >= |data| then Outcome(0, pos, true, counter, [])
    else
      var op := data[pos];
      var p := pos + 1;
      var k := Operands(op);
      if p + k > |data| then Outcome(0, After(data, p, k), true, counter, [])
      else
        var o := Act(cfg, op, data[p..p + k], p + k, wait1, wait2, counter);
        o.(calls := o.calls + FlushTail(cfg))
  }

  // ------------------------------------------------------------ the player

  /** The playback state `vgm_process_command` changes: `g_is_playing`, `*loop_counter` and the calls made. */
  class Player {
    const fp: Stream
    var playing: bool
    var loopCounter: int
    var calls: seq<Call>

    constructor (fp: Stream)
      ensures this.fp == fp && playing && loopCounter == 1 && calls == []
    {
      this.fp := fp;
      playing := true;
      loopCounter := 1;
      calls := [];
    }

    method ProcessCommand(cfg: Config, wait1: int, wait2: int) returns (wait: int)
      modifies this, fp
      ensures var o := Command(cfg, fp.data, old(fp.pos), wait1, wait2, old(loopCounter));
        wait == o.wait && fp.pos == o.next && loopCounter == o.counter &&
        playing == (old(playing) && !o.stop) && calls == old(calls) + o.calls
    {
      var opBytes := fp.Read(1);
      if |opBytes| != 1 {
        playing := false;
        return 0;
      }
      var ok, made;
      ok, wait, made := Dispatch(cfg, opBytes[0], wait1, wait2);
      if !ok {
        return 0;
      }
      if cfg.flushMode == 2 {
        made := made + [Flush];
      }
      calls := calls + made;
    }

    /**
     * The `switch` of `vgm_process_command` on an opcode already read: the
     * operands are read, and a short read clears `g_is_playing`.
     */
    method Dispatch(cfg: Config, op: byte, wait1: int, wait2: int) returns (ok: bool, wait: int, made: seq<Call>)
      requires fp.pos <= |fp.data|
      modifies this, fp
      ensures calls == old(calls)
      ensures var p := old(fp.pos);
        var k := Operands(op);
        ok == (p + k <= |fp.data|) &&
        (!ok ==> fp.pos == After(fp.data, p, k) && !playing && loopCounter == old(loopCounter)) &&
        (ok ==> var o := Act(cfg, op, fp.data[p..p + k], p + k, wait1, wait2, old(loopCounter));
          wait == o.wait && fp.pos == o.next && loopCounter == o.counter &&
          playing == (old(playing) && !o.stop) && made == o.calls)
    {
      ok, wait, made := true, 0, [];
      if op == 0x50 {
        var buf := fp.Read(1);
        if |buf| != 1 {
          playing := false;
          return false, 0, [];
        }
        made := [WriteCall(cfg, op, buf[0], 0)];
      } else if op == 0xA0 || 0x52 <= op <= 0x57 {
        var buf := fp.Read(2);
        if |buf| != 2 {
          playing := false;
          return false, 0, [];
        }
        made := [WriteCall(cfg, op, buf[0], buf[1])];
      } else if op == 0x61 {
        var buf := fp.Read(2);
        if |buf| != 2 {
          playing := false;
          return false, 0, [];
        }
        wait := buf[0] as int + buf[1] as int * 0x100;
      } else if op == 0x62 {
        wait := wait1;
      } else if op == 0x63 {
        wait := wait2;
      } else if op == 0x66 {
        if cfg.loopOffset > 0 && (loopCounter < cfg.loopCount || cfg.loopCount == 0) {
          fp.Seek(cfg.loopOffset);
          loopCounter := loopCounter + 1;
        } else {
          playing := false;
        }
      } else if 0x70 <= op <= 0x7F {
        wait := op % 0x10 + 1;
      }
    }
  }

  // ------------------------------------------------------ the command set

  /** A VGM command of the set this player handles, as a value. */
  datatype Cmd =
    | SnWrite(data: byte)                                // 0x50
    | AyWrite(addr: byte, data: byte)                    // 0xA0
    | OpnWrite(op: byte, addr: byte, data: byte)         // 0x52..0x57 (0x54 is the YM2151)
    | WaitSamples(n: u16)                                // 0x61
    | WaitNtscFrame                                      // 0x62
    | WaitPalFrame                                       // 0x63
    | WaitShort(len: nat)                                // 0x70..0x7F: 1..16 samples
    | EndOfData                                          // 0x66

  predicate WellFormed(c: Cmd)
  {
    (c.OpnWrite? ==> 0x52 <= c.op <= 0x57) && (c.WaitShort? ==> 1 <= c.len <= 16)
  }

  /** The bytes a VGM writer emits for a command. */
  function Encode(c: Cmd): (b: seq<byte>)
    requires WellFormed(c)
  {
    match c
    case SnWrite(d) => [0x50, d]
    case AyWrite(a, d) => [0xA0, a, d]
    case OpnWrite(op, a, d) => [op, a, d]
    case WaitSamples(n) => [0x61, n % 0x100, n / 0x100]
    case WaitNtscFrame => [0x62]
    case WaitPalFrame => [0x63]
    case WaitShort(n) => [0x70 + (n - 1)]
    case EndOfData => [0x66]
  }

  /**
   * The samples a command stands for in the VGM format: its own count, the
   * two frame lengths as the player currently sets them, none for a write.
   */
  function Samples(c: Cmd, wait1: int, wait2: int): int
  {
    match c
    case WaitSamples(n) => n
    case WaitNtscFrame => wait1
    case WaitPalFrame => wait2
    case WaitShort(n) => n
    case _ => 0
  }

  /** Whether a command writes a chip register. */
  predicate IsWrite(c: Cmd)
  {
    c.SnWrite? || c.AyWrite? || c.OpnWrite?
  }

  /**
   * Every command other than the end of data is read back in full: the
   * stream moves exactly past its encoding, playback goes on, the wait is
   * the command's sample count, and exactly one chip call is made for a
   * write (followed by the flush of flush mode 2).
   */
  lemma {:induction false} CommandDecodes(cfg: Config, c: Cmd, rest: seq<byte>, wait1: int, wait2: int, counter: int)
    requires WellFormed(c) && c != EndOfData
    ensures var o := Command(cfg, Encode(c) + rest, 0, wait1, wait2, counter);
      o.wait == Samples(c, wait1, wait2) && o.next == |Encode(c)| && !o.stop && o.counter == counter &&
      |o.calls| == (if IsWrite(c) then 1 else 0) + |FlushTail(cfg)| &&
      o.calls[|o.calls| - |FlushTail(cfg)|..] == FlushTail(cfg)
  {
    hide WriteCall;
    var e := Encode(c);
    var data := e + rest;
    assert data[0] == e[0] && Operands(e[0]) == |e| - 1;
    assert data[1..|e|] == e[1..];
    match c
    case WaitSamples(n) =>
      assert data[1] == n % 0x100 && data[2] == n / 0x100;
    case WaitShort(n) =>
      assert (0x70 + (n - 1)) % 0x10 + 1 == n;
    case _ =>
  }

  /** The end-of-data command loops back exactly when the loop rule allows, and otherwise stops. */
  lemma EndOfDataLoops(cfg: Config, rest: seq<byte>, wait1: int, wait2: int, counter: int)
    ensures var o := Command(cfg, Encode(EndOfData) + rest, 0, wait1, wait2, counter);
      o.wait == 0 && o.calls == FlushTail(cfg) &&
      (Loops(cfg, counter) ==> !o.stop && o.next == cfg.loopOffset && o.counter == counter + 1) &&
      (!Loops(cfg, counter) ==> o.stop && o.next == 1 && o.counter == counter)
  {
    assert (Encode(EndOfData) + rest)[0] == 0x66;
  }

  /**
   * With a loop point and a loop count `n > 0`, end-of-data commands played
   * from the initial counter 1 jump back exactly `n - 1` times before playback
   * stops, so the song plays `n` times.
   */
  function LoopsBeforeStop(cfg: Config, counter: int): nat
    requires cfg.loopCount > 0
    decreases cfg.loopCount - counter
  {
    if Command(cfg, [0x66], 0, 0, 0, counter).stop then 0
    else 1 + LoopsBeforeStop(cfg, Command(cfg, [0x66], 0, 0, 0, counter).counter)
  }

  lemma {:induction false} LoopsFrom(cfg: Config, counter: int)
    requires cfg.loopCount > 0 && cfg.loopOffset > 0 && counter <= cfg.loopCount
    ensures LoopsBeforeStop(cfg, counter) == cfg.loopCount - counter
    decreases cfg.loopCount - counter
  {
    assert Encode(EndOfData) + [] == [0x66];
    EndOfDataLoops(cfg, [], 0, 0, counter);
    hide Command, Encode;
    if counter < cfg.loopCount {
      LoopsFrom(cfg, counter + 1);
    }
  }

  lemma SongPlaysLoopCountTimes(cfg: Config)
    requires cfg.loopCount > 0 && cfg.loopOffset > 0
    ensures 1 + LoopsBeforeStop(cfg, 1) == cfg.loopCount
  {
    LoopsFrom(cfg, 1);
  }

  /** Without a loop point, or with the count reached, the end of data stops playback at once. */
  lemma NoLoopStops(cfg: Config, counter: int)
    requires cfg.loopOffset == 0 || (cfg.loopCount > 0 && counter >= cfg.loopCount)
    ensures Command(cfg, [0x66], 0, 0, 0, counter).stop
  {
  }

  /**
   * A truncated command (the stream ends inside its operands) stops playback
   * with no wait and no call, not even the flush.
   */
  lemma TruncatedCommandStops(cfg: Config, data: seq<byte>, pos: nat, wait1: int, wait2: int, counter: int)
    requires pos < |data| && pos + 1 + Operands(data[pos]) > |data|
    ensures var o := Command(cfg, data, pos, wait1, wait2, counter);
      o.stop && o.wait == 0 && o.calls == [] && o.counter == counter && o.next == |data|
  {
  }

  /**
   * YM2151 writes always reach the chip, whatever conversion is on; OPN
   * writes go to the transcoder exactly when it is on and the song's chip is
   * the one the opcode addresses, with port 1 for 0x53 and 0x57.
   */
  lemma WriteRouting(cfg: Config, op: byte, d1: byte, d2: byte)
    requires 0x52 <= op <= 0x57
    ensures op == 0x54 ==> WriteCall(cfg, op, d1, d2) == ChipWrite(YM2151, 0, d1, d2)
    ensures op != 0x54 ==>
      var chip := if op <= 0x53 then YM2612 else if op == 0x55 then YM2203 else YM2608;
      var port := if op == 0x53 || op == 0x57 then 1 else 0;
      WriteCall(cfg, op, d1, d2) ==
        (if cfg.opnToOpm && cfg.chip == chip then OpnToOpm(d1, d2, port) else ChipWrite(chip, port, d1, d2))
  {
  }
}
