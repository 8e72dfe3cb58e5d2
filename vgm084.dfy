// The VGM player of v0.84/console_player/vgm.c: the header read as a raw
// 0x100-byte structure, `vgm_process_command` with its wait override and its
// unlimited loop, and the playback loop of `vgm_play`, which processes a
// command only when no wait is pending and works a pending wait off in
// chunks of at most 1000 samples.

module V0084Vgm {
  import opened Bytes
  import opened ChipType
  import V0903VgmHeader

  const HEADER_SIZE: nat := 0x100
  const SAMPLE_RATE: nat := 44100
  const DEFAULT_WAIT1: u16 := 735
  const DEFAULT_WAIT2: u16 := 882
  /** The largest part of a wait slept in one pass of the playback loop. */
  const CHUNK: nat := 1000
  /** The pause after a sample-memory write, in microseconds. */
  const RAM_PAUSE_US: nat := 50000

  // ------------------------------------------------------------------ header

  /** The fields of `struct vgm_header_t` the player uses, at their VGM 1.71 offsets. */
  datatype Header = Header(version: u32, totalSamples: u32, loopOffset: u32, dataField: u32)

  /** The header structure over the 0x100 bytes read into it. */
  function HeaderOf(raw: seq<byte>): (h: Header)
    requires |raw| == HEADER_SIZE
    ensures h.version == Le32At(raw, 0x08) && h.loopOffset == Le32At(raw, 0x1C)
  {
    Header(Le32At(raw, 0x08), Le32At(raw, 0x18), Le32At(raw, 0x1C), Le32At(raw, 0x34))
  }

  /**
   * Where the commands start: 0x40 before version 1.50 or when the field is
   * 0, else the field counted from 0x34. The sum is a `uint32_t` and wraps.
   */
  function DataStart(h: Header): (p: u32)
    ensures h.version < 0x150 || h.dataField == 0 ==> p == 0x40
    ensures h.version >= 0x150 && h.dataField != 0 ==> p == (0x34 + h.dataField) % TWO32
  {
    if h.version < 0x150 || h.dataField == 0 then 0x40 else (0x34 + h.dataField) % TWO32
  }

  /**
   * The data start agrees with the v0.903 player's relative-offset reading,
   * except for the one field value whose sum wraps to 0, which v0.903 turns
   * into 0x40.
   */
  lemma DataStartAgreesWithPlayer(raw: seq<byte>)
    requires |raw| == HEADER_SIZE
    ensures var h := HeaderOf(raw);
      var p := V0903VgmHeader.DataOffsetOf(raw, h.version);
      (DataStart(h) != 0 ==> DataStart(h) == p) &&
      (DataStart(h) == 0 ==> h.dataField == TWO32 - 0x34 && p == 0x40)
  {
    hide Le32At;
    var h := HeaderOf(raw);
    var d := Le32At(raw, 0x34);
    assert h.dataField == d;
    var p := V0903VgmHeader.DataOffsetOf(raw, h.version);
    if h.version >= 0x150 && d != 0 {
      var sum := (0x34 + d) % TWO32;
      assert V0903VgmHeader.ReadRelOfs(raw, 0x34) == sum;
      assert p == if sum == 0 then 0x40 else sum;
      assert sum == 0 ==> d == TWO32 - 0x34;
    }
  }

  // ------------------------------------------------------------- commands

  /** A call a command makes; a chip write goes to the slot configured for that chip. */
  datatype Call =
    | ChipData(chip: Chip, data: byte)                          // `sn76489_write_reg`
    | ChipWrite(chip: Chip, port: nat, addr: byte, data: byte)  // `<chip>_write_reg`
    | RamWrite(start: u32, bytes: seq<byte>)                    // `spfm_write_ym2608_ram`
    | OkiRamWrite(start: u32, adpcm: seq<byte>)                 // OKIM6258 data, re-encoded for the YM2608
    | Flush                                                     // `spfm_flush`
    | Sleep(us: nat)                                            // `yasp_usleep`

  /** `vgm_wait1` and `vgm_wait2`: the lengths of the 0x62 and 0x63 waits. */
  datatype Waits = Waits(wait1: u16, wait2: u16)

  /**
   * The effect of one command: the samples to wait, the stream position
   * after it, whether `g_is_playing` is cleared, the wait lengths after it and
   * the calls made, in order.
   */
  datatype Outcome = Outcome(wait: nat, next: nat, stop: bool, waits: Waits, calls: seq<Call>)

  /** The opcodes that write a chip register with two operand bytes. */
  predicate IsPairWrite(op: byte)
  {
    op == 0xA0 || 0x51 <= op <= 0x5A || op == 0x5E || op == 0x5F
  }

  /**
   * The operand bytes an opcode reads before acting: 0x64 reads a target
   * and a 16-bit length, 0x67 the 0x66 marker, a type and a 32-bit size.
   */
  function Operands(op: byte): (n: nat)
    ensures n <= 6
    ensures IsPairWrite(op) || op == 0x61 ==> n == 2
  {
    if op == 0x50 then 1
    else if IsPairWrite(op) || op == 0x61 then 2
    else if op == 0x64 then 3
    else if op == 0x67 then 6
    else 0
  }

  /** The chip call of a register-write opcode with its operands. */
  function WriteCall(op: byte, d1: byte, d2: byte): (c: Call)
    requires op == 0x50 || IsPairWrite(op)
    ensures op == 0x50 <==> c.ChipData?
  {
    if op == 0x50 then ChipData(SN76489, d1)
    else if op == 0xA0 then ChipWrite(AY8910, 0, d1, d2)
    else if op == 0x5A then ChipWrite(Y8950, 0, d1, d2)
    else if op == 0x58 then ChipWrite(YM3526, 0, d1, d2)
    else if op == 0x59 then ChipWrite(YM3812, 0, d1, d2)
    else if op == 0x5E || op == 0x5F then ChipWrite(YMF262, if op == 0x5E then 0 else 1, d1, d2)
    else if op == 0x51 then ChipWrite(YM2413, 0, d1, d2)
    else if op == 0x52 || op == 0x53 then ChipWrite(YM2612, if op == 0x52 then 0 else 1, d1, d2)
    else if op == 0x54 then ChipWrite(YM2151, 0, d1, d2)
    else if op == 0x55 then ChipWrite(YM2203, 0, d1, d2)
    else ChipWrite(YM2608, if op == 0x56 then 0 else 1, d1, d2)
  }

  /** The flush `g_flush_mode == 2` adds after every command that reaches the end of the `switch`. */
  function FlushTail(flushMode: int): (t: seq<Call>)
    ensures |t| <= 1
  {
    if flushMode == 2 then [Flush] else []
  }

  /** What `opna_adpcm_write` leaves behind: the stream position and the calls made. */
  datatype Block = Block(next: nat, calls: seq<Call>)

  /**
   * `opna_adpcm_write` from `pos`, for a block of `size` bytes: a 32-bit ROM
   * size, a 32-bit start address, then `size - 8` bytes of sample data (the
   * difference is unsigned and wraps). A short read gives up with no call;
   * otherwise the data goes to the YM2608's memory (type 0x81) or is
   * re-encoded from OKIM6258 ADPCM first (type 0x04), any other type is
   * only reported, and the buffer is flushed and the player pauses 50 ms.
   */
  function AdpcmBlock(data: seq<byte>, pos: nat, kind: byte, size: u32): (b: Block)
    ensures b.calls != [] ==> 2 <= |b.calls| <= 3 && b.calls[|b.calls| - 2..] == [Flush, Sleep(RAM_PAUSE_US)]
    ensures pos <= b.next
  {
    if pos + 8 > |data| then Block(After(data, pos, 8), [])
    else
      var start := Le32At(data, pos + 4);
      var n := (size + TWO32 - 8) % TWO32;
      var q := pos + 8;
      if q + n > |data| then Block(After(data, q, n), [])
      else
        var bytes := data[q..q + n];
        var write :=
          if kind == 0x81 then [RamWrite(start, bytes)]
          else if kind == 0x04 then [OkiRamWrite(start, bytes)]
          else [];
        Block(q + n, write + [Flush, Sleep(RAM_PAUSE_US)])
  }

  /**
   * What an opcode does once its operands `args` were read in full from
   * `p`; the flush of flush mode 2 is not part of it.
   */
  function Act(h: Header, data: seq<byte>, op: byte, p: nat, args: seq<byte>, waits: Waits): (o: Outcome)
    requires |args| == Operands(op)
  {
    var next := p + |args|;
    if op == 0x50 || IsPairWrite(op) then
      Outcome(0, next, false, waits, [WriteCall(op, args[0], if op == 0x50 then 0 else args[1])])
    else if op == 0x61 then Outcome(Le16(args[0], args[1]), next, false, waits, [])
    else if op == 0x62 then Outcome(waits.wait1, next, false, waits, [])
    else if op == 0x63 then Outcome(waits.wait2, next, false, waits, [])
    else if op == 0x64 then
      var n := Le16(args[1], args[2]);
      var w :=
        if args[0] == 0x62 then waits.(wait1 := n)
        else if args[0] == 0x63 then waits.(wait2 := n)
        else waits;
      Outcome(0, next, false, w, [])
    else if op == 0x66 then
      if h.loopOffset > 0 then Outcome(0, (h.loopOffset + 0x1C) % TWO32, false, waits, [])
      else Outcome(0, next, true, waits, [])
    else if op == 0x67 then
      var b := AdpcmBlock(data, next, args[1], Le32(args[2], args[3], args[4], args[5]));
      Outcome(0, b.next, false, waits, b.calls)
    else if 0x70 <= op <= 0x7F then Outcome(op % 0x10 + 1, next, false, waits, [])
    else Outcome(0, next, false, waits, [])
  }

  /**
   * `vgm_process_command` on the bytes of the stream from `pos`. A read that
   * comes up short, or a data block whose marker byte is not 0x66, clears
   * `g_is_playing` and returns 0 at once, without the flush.
   */
  function Command(h: Header, flushMode: int, data: seq<byte>, pos: nat, waits: Waits): (o: Outcome)
  {
    if pos >= |data| then Outcome(0, pos, true, waits, [])
    else
      var op := data[pos];
      var p := pos + 1;
      var k := Operands(op);
      if p + k > |data| then Outcome(0, After(data, p, k), true, waits, [])
      else if op == 0x67 && data[p] != 0x66 then Outcome(0, p + k, true, waits, [])
      else
        var o := Act(h, data, op, p, data[p..p + k], waits);
        o.(calls := o.calls + FlushTail(flushMode))
  }

  /** `Act` on the end of data. */
  lemma ActEnd(h: Header, data: seq<byte>, p: nat, args: seq<byte>, waits: Waits)
    requires |args| == Operands(0x66)
    ensures Act(h, data, 0x66, p, args, waits) ==
      if h.loopOffset > 0 then Outcome(0, (h.loopOffset + 0x1C) % TWO32, false, waits, [])
      else Outcome(0, p, true, waits, [])
  {
  }

  /** `Act` on a data block whose marker byte was read. */
  lemma ActBlock(h: Header, data: seq<byte>, p: nat, args: seq<byte>, waits: Waits)
    requires |args| == Operands(0x67)
    ensures var b := AdpcmBlock(data, p + 6, args[1], Le32(args[2], args[3], args[4], args[5]));
      Act(h, data, 0x67, p, args, waits) == Outcome(0, b.next, false, waits, b.calls)
  {
  }

  /** `Command` when the opcode and its operands could be read: `Act` and the flush. */
  lemma CommandRead(h: Header, flushMode: int, data: seq<byte>, pos: nat, waits: Waits)
    requires pos < |data| && pos + 1 + Operands(data[pos]) <= |data|
    requires data[pos] == 0x67 ==> data[pos + 1] == 0x66
    ensures var o := Act(h, data, data[pos], pos + 1, data[pos + 1..pos + 1 + Operands(data[pos])], waits);
      Command(h, flushMode, data, pos, waits) == o.(calls := o.calls + FlushTail(flushMode))
  {
  }

  /** No command waits longer than a 16-bit sample count. */
  lemma CommandWaitBound(h: Header, flushMode: int, data: seq<byte>, pos: nat, waits: Waits)
    ensures Command(h, flushMode, data, pos, waits).wait <= 0xFFFF
  {
  }

  /**
   * The wait override 0x64 changes only the length its target names:
   * `wait1` for 0x62, `wait2` for 0x63, neither for any other target. It
   * waits for nothing and playback goes on.
   */
  lemma WaitOverride(h: Header, flushMode: int, target: byte, n: u16, rest: seq<byte>, waits: Waits)
    ensures var o := Command(h, flushMode, [0x64, target, n % 0x100, n / 0x100] + rest, 0, waits);
      o.wait == 0 && !o.stop && o.next == 4 && o.calls == FlushTail(flushMode) &&
      o.waits == (if target == 0x62 then waits.(wait1 := n)
                  else if target == 0x63 then waits.(wait2 := n)
                  else waits)
  {
    var data := [0x64, target, n % 0x100, n / 0x100] + rest;
    assert data[1..4] == [target, n % 0x100, n / 0x100];
  }

  /**
   * The end of data jumps to `loop_offset + 0x1C` whenever the header has a
   * loop offset, however often it is reached; without one it stops playback.
   */
  lemma EndOfDataLoops(h: Header, flushMode: int, rest: seq<byte>, waits: Waits)
    ensures var o := Command(h, flushMode, [0x66] + rest, 0, waits);
      o.wait == 0 && o.waits == waits && o.calls == FlushTail(flushMode) &&
      (h.loopOffset > 0 ==> !o.stop && o.next == (h.loopOffset + 0x1C) % TWO32) &&
      (h.loopOffset == 0 ==> o.stop && o.next == 1)
  {
    assert ([0x66] + rest)[0] == 0x66;
  }

  /** A data block whose marker byte is not 0x66 stops playback with no call and no flush. */
  lemma BadBlockStops(h: Header, flushMode: int, data: seq<byte>, pos: nat, waits: Waits)
    requires pos + 7 <= |data| && data[pos] == 0x67 && data[pos + 1] != 0x66
    ensures var o := Command(h, flushMode, data, pos, waits);
      o.stop && o.wait == 0 && o.calls == [] && o.waits == waits && o.next == pos + 7
  {
  }

  /**
   * A command that runs past the end of the stream, its opcode or its
   * operands, stops playback with no wait and no call, not even the flush,
   * and leaves the stream at its end (or where a seek past the end put it).
   */
  lemma TruncatedCommandStops(h: Header, flushMode: int, data: seq<byte>, pos: nat, waits: Waits)
    requires pos < |data| ==> pos + 1 + Operands(data[pos]) > |data|
    ensures Command(h, flushMode, data, pos, waits) == Outcome(0, Max(pos, |data|), true, waits, [])
  {
  }

  /**
   * An opcode the player does not know (0x5B to 0x5D among them) consumes
   * only itself: no wait, no call but the flush, and playback goes on.
   */
  lemma UnknownOpcodeSkipsOneByte(h: Header, flushMode: int, data: seq<byte>, pos: nat, waits: Waits)
    requires pos < |data|
    requires var op := data[pos];
      !(op == 0x50 || IsPairWrite(op) || 0x61 <= op <= 0x64 || op == 0x66 || op == 0x67 || 0x70 <= op <= 0x7F)
    ensures var o := Command(h, flushMode, data, pos, waits);
      !o.stop && o.wait == 0 && o.calls == FlushTail(flushMode) && o.waits == waits && o.next == pos + 1
  {
  }

  /**
   * A complete sample-memory block of type 0x81 moves the stream exactly
   * past it and writes its data, after its 8-byte prefix, at the start
   * address the prefix gives.
   */
  lemma RamBlockWrites(data: seq<byte>, pos: nat, size: u32)
    requires size >= 8 && pos + size <= |data|
    ensures AdpcmBlock(data, pos, 0x81, size) ==
      Block(pos + size, [RamWrite(Le32At(data, pos + 4), data[pos + 8..pos + size]), Flush, Sleep(RAM_PAUSE_US)])
  {
  }

  // ---------------------------------------------------------- playback loop

  /**
   * The state of `vgm_play`'s loop: the stream position, `g_is_playing`,
   * the wait lengths, the samples still to wait, the samples waited so far
   * and the calls made.
   */
  datatype PlayState = PlayState(pos: nat, playing: bool, waits: Waits, waiting: nat, current: nat, calls: seq<Call>)

  /** The part of a pending wait one pass sleeps for. */
  function Chunk(waiting: nat): (c: nat)
    ensures c <= CHUNK && c <= waiting
    ensures waiting > 0 ==> c > 0
    ensures c == CHUNK || c == waiting
  {
    if waiting > CHUNK then CHUNK else waiting
  }

  /** The sleep of a chunk, in microseconds, when it is not 0. */
  function ChunkSleep(chunk: nat): (t: seq<Call>)
    ensures |t| <= 1
  {
    var us := chunk * 1000000 / SAMPLE_RATE;
    if us > 0 then [Sleep(us)] else []
  }

  /**
   * One pass of the loop: with a wait pending, sleep for a chunk of it;
   * otherwise process one command and add its samples to the wait.
   */
  function Step(h: Header, flushMode: int, data: seq<byte>, s: PlayState): (r: PlayState)
    ensures s.waiting > 0 ==>
      r.current + r.waiting == s.current + s.waiting && r.current == s.current + Chunk(s.waiting) &&
      r.pos == s.pos && r.playing == s.playing && r.waits == s.waits
    ensures s.waiting == 0 ==>
      var o := Command(h, flushMode, data, s.pos, s.waits);
      r.waiting == o.wait && r.current == s.current && r.pos == o.next && r.waits == o.waits &&
      r.playing == !o.stop && r.calls == s.calls + o.calls
  {
    if s.waiting > 0 then
      var chunk := Chunk(s.waiting);
      s.(current := s.current + chunk, waiting := s.waiting - chunk, calls := s.calls + ChunkSleep(chunk))
    else
      var o := Command(h, flushMode, data, s.pos, s.waits);
      s.(pos := o.next, playing := !o.stop, waits := o.waits, waiting := s.waiting + o.wait,
         calls := s.calls + o.calls)
  }

  /**
   * The loop run for at most `passes` passes, while `g_is_playing` holds.
   * The keyboard thread ends the loop early by raising the next- or
   * previous-track flag: `passes` is the number of passes before it does.
   */
  function Run(h: Header, flushMode: int, data: seq<byte>, s: PlayState, passes: nat): (r: PlayState)
    ensures |s.calls| <= |r.calls| && r.calls[..|s.calls|] == s.calls
    decreases passes
  {
    if !s.playing || passes == 0 then s
    else
      var t := Step(h, flushMode, data, s);
      assert t.calls[..|s.calls|] == s.calls;
      Run(h, flushMode, data, t, passes - 1)
  }

  /** `Run` one pass down, for the loop that follows it. */
  lemma RunUnfold(h: Header, flushMode: int, data: seq<byte>, s: PlayState, passes: nat)
    requires s.playing && passes > 0
    ensures Run(h, flushMode, data, s, passes) == Run(h, flushMode, data, Step(h, flushMode, data, s), passes - 1)
  {
  }

  /** A run that is stopped or out of passes is where it is. */
  lemma RunDone(h: Header, flushMode: int, data: seq<byte>, s: PlayState, passes: nat)
    requires !s.playing || passes == 0
    ensures Run(h, flushMode, data, s, passes) == s
  {
  }

  /** The number of passes a pending wait of `w` samples takes: one per started thousand. */
  function DrainPasses(w: nat): nat
  {
    (w + CHUNK - 1) / CHUNK
  }

  /**
   * A pending wait of `w` samples is worked off in exactly
   * `DrainPasses(w)` passes, during which no command is processed: the
   * position and the wait lengths stay, the samples waited grow by `w`, and
   * only sleeps are added to the calls.
   */
  lemma {:induction false} Drains(h: Header, flushMode: int, data: seq<byte>, s: PlayState)
    requires s.playing
    ensures var r := Run(h, flushMode, data, s, DrainPasses(s.waiting));
      r.waiting == 0 && r.current == s.current + s.waiting && r.pos == s.pos && r.waits == s.waits &&
      r.playing && forall i :: |s.calls| <= i < |r.calls| ==> r.calls[i].Sleep?
    decreases s.waiting
  {
    if s.waiting > 0 {
      hide Run;
      var t := Step(h, flushMode, data, s);
      RunUnfold(h, flushMode, data, s, DrainPasses(s.waiting));
      assert DrainPasses(t.waiting) == DrainPasses(s.waiting) - 1;
      Drains(h, flushMode, data, t);
      var r := Run(h, flushMode, data, t, DrainPasses(t.waiting));
      forall i | |s.calls| <= i < |r.calls|
        ensures r.calls[i].Sleep?
      {
        if i < |t.calls| {
          assert r.calls[i] == t.calls[i];
        }
      }
    }
  }

  /**
   * The cases of `vgm_process_command`'s `switch` that neither read further
   * nor seek: the register writes, the waits and the wait override.
   */
  method Perform(op: byte, args: seq<byte>, waits: Waits, ghost h: Header, ghost data: seq<byte>, ghost p: nat)
    returns (wait: nat, waits': Waits, made: seq<Call>)
    requires |args| == Operands(op) && op != 0x66 && op != 0x67
    ensures var o := Act(h, data, op, p, args, waits);
      wait == o.wait && waits' == o.waits && made == o.calls && o.next == p + |args| && !o.stop
  {
    wait, waits', made := 0, waits, [];
    if op == 0x50 || IsPairWrite(op) {
      made := [WriteCall(op, args[0], if op == 0x50 then 0 else args[1])];
    } else if op == 0x61 {
      wait := Le16(args[0], args[1]);
    } else if op == 0x62 {
      wait := waits.wait1;
    } else if op == 0x63 {
      wait := waits.wait2;
    } else if op == 0x64 {
      var n := Le16(args[1], args[2]);
      if args[0] == 0x62 {
        waits' := waits.(wait1 := n);
      } else if args[0] == 0x63 {
        waits' := waits.(wait2 := n);
      }
    } else if 0x70 <= op <= 0x7F {
      wait := op % 0x10 + 1;
    }
  }

  // ---------------------------------------------------------------- player

  /** What the player changes: `g_is_playing` and the calls made. */
  class Playback {
    const fp: Stream
    var playing: bool
    var calls: seq<Call>

    constructor (fp: Stream)
      ensures this.fp == fp && playing && calls == []
    {
      this.fp := fp;
      playing := true;
      calls := [];
    }

    /**
     * `vgm_parse_header`: 0x100 bytes read into the header structure, then a
     * seek to the data start (a seek forward never fails).
     */
    method ParseHeader() returns (ok: bool, h: Header)
      modifies fp
      ensures ok == (|old(fp.Peek(HEADER_SIZE))| == HEADER_SIZE)
      ensures ok ==> h == HeaderOf(old(fp.Peek(HEADER_SIZE))) && fp.pos == DataStart(h)
    {
      var raw := fp.Read(HEADER_SIZE);
      if |raw| != HEADER_SIZE {
        return false, Header(0, 0, 0, 0);
      }
      h := HeaderOf(raw);
      fp.Seek(DataStart(h));
      return true, h;
    }

    /** `opna_adpcm_write` on the stream, for a block of `size` bytes of type `kind`. */
    method AdpcmWrite(kind: byte, size: u32) returns (made: seq<Call>)
      modifies fp
      ensures var b := AdpcmBlock(fp.data, old(fp.pos), kind, size);
        made == b.calls && fp.pos == b.next
    {
      hide Le32At;
      ghost var pos := fp.pos;
      var romSize := fp.Read(4);
      if |romSize| != 4 {
        assert pos + 8 > |fp.data| && fp.pos == After(fp.data, pos, 8);
        return [];
      }
      var startBytes := fp.Read(4);
      if |startBytes| != 4 {
        assert pos + 8 > |fp.data| && fp.pos == After(fp.data, pos, 8);
        return [];
      }
      assert pos + 8 <= |fp.data| && fp.pos == pos + 8;
      assert startBytes == fp.data[pos + 4..pos + 8];
      var n := (size + TWO32 - 8) % TWO32;
      var bytes := fp.Read(n);
      if |bytes| != n {
        assert pos + 8 + n > |fp.data|;
        return [];
      }
      assert bytes == fp.data[pos + 8..pos + 8 + n];
      var start := Le32At(startBytes, 0);
      Le32AtSlice(fp.data, pos + 4, startBytes);
      if kind == 0x81 {
        made := [RamWrite(start, bytes)];
      } else if kind == 0x04 {
        made := [OkiRamWrite(start, bytes)];
      } else {
        made := [];
      }
      made := made + [Flush, Sleep(RAM_PAUSE_US)];
    }

    /** `vgm_process_command`: one command read, its calls made, its wait returned. */
    method ProcessCommand(h: Header, flushMode: int, waits: Waits) returns (wait: nat, waits': Waits)
      modifies this, fp
      ensures var o := Command(h, flushMode, fp.data, old(fp.pos), waits);
        wait == o.wait && waits' == o.waits && fp.pos == o.next &&
        playing == (old(playing) && !o.stop) && calls == old(calls) + o.calls
    {
      hide Command;
      ghost var pos := fp.pos;
      var opBytes := fp.Read(1);
      if |opBytes| != 1 {
        TruncatedCommandStops(h, flushMode, fp.data, pos, waits);
        playing := false;
        return 0, waits;
      }
      var op := opBytes[0];
      var k := Operands(op);
      var args := fp.Read(k);
      if |args| != k {
        TruncatedCommandStops(h, flushMode, fp.data, pos, waits);
        playing := false;
        return 0, waits;
      }
      assert args == fp.data[pos + 1..pos + 1 + k];
      if op == 0x67 && args[0] != 0x66 {
        BadBlockStops(h, flushMode, fp.data, pos, waits);
        playing := false;
        return 0, waits;
      }
      CommandRead(h, flushMode, fp.data, pos, waits);
      wait, waits' := Execute(h, flushMode, op, args, waits, pos + 1);
    }

    /**
     * The `switch` of `vgm_process_command` once the opcode and its operands
     * were read, and the flush of flush mode 2 after it.
     */
    method Execute(h: Header, flushMode: int, op: byte, args: seq<byte>, waits: Waits, ghost p: nat)
      returns (wait: nat, waits': Waits)
      requires |args| == Operands(op) && fp.pos == p + |args|
      requires op == 0x67 ==> args[0] == 0x66
      modifies this, fp
      ensures var o := Act(h, fp.data, op, p, args, waits);
        wait == o.wait && waits' == o.waits && fp.pos == o.next &&
        playing == (old(playing) && !o.stop) && calls == old(calls) + o.calls + FlushTail(flushMode)
    {
      hide Act;
      var made: seq<Call> := [];
      wait, waits' := 0, waits;
      if op == 0x66 {
        ActEnd(h, fp.data, p, args, waits);
        if h.loopOffset > 0 {
          fp.Seek((h.loopOffset + 0x1C) % TWO32);
        } else {
          playing := false;
        }
      } else if op == 0x67 {
        ActBlock(h, fp.data, p, args, waits);
        made := AdpcmWrite(args[1], Le32(args[2], args[3], args[4], args[5]));
      } else {
        wait, waits', made := Perform(op, args, waits, h, fp.data, p);
      }
      calls := calls + made + FlushTail(flushMode);
    }

    /**
     * One pass of `vgm_play`'s loop with a wait pending: sleep for a chunk of
     * at most 1000 samples.
     */
    method SleepChunk(waiting: nat, current: nat) returns (waiting': nat, current': nat)
      requires waiting > 0
      modifies this
      ensures waiting' == waiting - Chunk(waiting) && current' == current + Chunk(waiting)
      ensures calls == old(calls) + ChunkSleep(Chunk(waiting)) && playing == old(playing)
    {
      var chunk := if waiting > CHUNK then CHUNK else waiting;
      var us := chunk * 1000000 / SAMPLE_RATE;
      if us > 0 {
        calls := calls + [Sleep(us)];
      }
      current' := current + chunk;
      waiting' := waiting - chunk;
    }

    /**
     * `vgm_play` after the header: the wait lengths start at 735 and 882, and
     * each pass either sleeps for a chunk of the pending wait or processes a
     * command. The loop ends when playback stops or after `passes` passes
     * (the track-change flags); then the buffer is flushed and `g_is_playing`
     * cleared.
     */
    method PlayLoop(h: Header, flushMode: int, passes: nat)
      modifies this, fp
      ensures var r := Run(h, flushMode, fp.data,
        PlayState(old(fp.pos), old(playing), Waits(DEFAULT_WAIT1, DEFAULT_WAIT2), 0, 0, old(calls)), passes);
        fp.pos == r.pos && calls == r.calls + [Flush] && !playing
    {
      hide Run, Command;
      ghost var goal := Run(h, flushMode, fp.data,
        PlayState(fp.pos, playing, Waits(DEFAULT_WAIT1, DEFAULT_WAIT2), 0, 0, calls), passes);
      var waits := Waits(DEFAULT_WAIT1, DEFAULT_WAIT2);
      var waiting: nat := 0;
      var current: nat := 0;
      var left := passes;
      while playing && left > 0
        invariant goal == Run(h, flushMode, fp.data, PlayState(fp.pos, playing, waits, waiting, current, calls), left)
        decreases left
      {
        ghost var s := PlayState(fp.pos, playing, waits, waiting, current, calls);
        RunUnfold(h, flushMode, fp.data, s, left);
        ghost var next := Step(h, flushMode, fp.data, s);
        if waiting > 0 {
          waiting, current := SleepChunk(waiting, current);
        } else {
          var samples;
          samples, waits := ProcessCommand(h, flushMode, waits);
          if samples > 0 {
            waiting := waiting + samples;
          }
        }
        assert PlayState(fp.pos, playing, waits, waiting, current, calls) == next;
        left := left - 1;
      }
      RunDone(h, flushMode, fp.data, PlayState(fp.pos, playing, waits, waiting, current, calls), left);
      calls := calls + [Flush];
      playing := false;
    }

    /**
     * `vgm_play`: false when the header cannot be read; otherwise the loop
     * from the data start, ending with a flush and `g_is_playing` cleared.
     */
    method VgmPlay(flushMode: int, passes: nat) returns (ok: bool)
      modifies this, fp
      ensures ok == (|old(fp.Peek(HEADER_SIZE))| == HEADER_SIZE)
      ensures !ok ==> calls == old(calls) && playing == old(playing)
      ensures ok ==> var h := HeaderOf(old(fp.Peek(HEADER_SIZE)));
        var r := Run(h, flushMode, fp.data,
          PlayState(DataStart(h), old(playing), Waits(DEFAULT_WAIT1, DEFAULT_WAIT2), 0, 0, old(calls)), passes);
        fp.pos == r.pos && calls == r.calls + [Flush] && !playing
    {
      var h;
      ok, h := ParseHeader();
      if !ok {
        return;
      }
      PlayLoop(h, flushMode, passes);
    }
  }
}
