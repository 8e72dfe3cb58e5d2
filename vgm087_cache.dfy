// The v0.87 OPN-to-OPM cache converter: the walk over the song body held in
// memory, the two places where it loses its place in the command stream,
// the walk as it was meant to be, and the header written over the
// placeholder once the body and the GD3 block are in the cache.

module V0087VgmCache {
  import opened Bytes
  import V0903VgmHeader
  import V0903VgmCommand
  import V0903VgmCache
  import V0915VgmParser

  type Cmd = V0903VgmCommand.Cmd

  // ------------------------------------------------------------ pieces

  /** What the converter puts out: bytes for the cache, or a write handed to the OPN-to-OPM transcoder. */
  datatype Piece =
    | Raw(bytes: seq<byte>)
    | OpnCall(addr: byte, data: byte, port: nat)

  /** One command's effect: whether the walk ends, where it resumes, and what it emits. */
  datatype Step = Step(stop: bool, next: nat, out: seq<Piece>)

  /** The OPN register writes the converter hands to the transcoder (0x54, the YM2151, is not one). */
  predicate IsOpnWrite(op: byte)
  {
    op == 0x52 || op == 0x53 || op == 0x55 || op == 0x56 || op == 0x57
  }

  /** The port a write goes to: the second one for the YM2612's and YM2608's port-1 opcodes. */
  function Port(op: byte): (p: nat)
    ensures p == 1 <==> op == 0x53 || op == 0x57
    ensures p <= 1
  {
    if op == 0x53 || op == 0x57 then 1 else 0
  }

  /** The one-byte commands copied to the cache: the frame waits, the end marker and the short waits. */
  predicate IsCopied(op: byte)
  {
    op == 0x62 || op == 0x63 || op == 0x66 || 0x70 <= op <= 0x7F
  }

  /** Bytes the converter steps over after an opcode it neither converts nor copies. */
  function Skip(op: byte): (n: nat)
    ensures n <= 6
    ensures n > 0 <==> op == 0x67 || op == 0xE0 || 0x80 <= op <= 0x8F
  {
    if op == 0x67 then 6
    else if op == 0xE0 then 4
    else if 0x80 <= op <= 0x8F then 1
    else 0
  }

  // ------------------------------------------------- the walk as written

  /**
   * The `switch` of `vgm_convert_and_cache_opn_to_opm_from_mem` on the
   * command at `pos`. A write or a 0x61 whose two operand bytes run past the
   * data ends the walk; every other opcode moves on by `Skip`, which can
   * leave the position past the end (the loop then simply ends).
   */
  function StepAt(data: seq<byte>, pos: nat): (s: Step)
    requires pos < |data|
    ensures s.next > pos
    ensures s.stop <==> (IsOpnWrite(data[pos]) || data[pos] == 0x61) && pos + 3 > |data|
  {
    var op := data[pos];
    var p := pos + 1;
    if IsOpnWrite(op) || op == 0x61 then
      if p + 2 > |data| then Step(true, p, [])
      else if op == 0x61 then
        var w := Le16(data[p], data[p + 1]);
        Step(false, p + 2, [Raw([0x61, w % 0x100, w / 0x100])])
      else Step(false, p + 2, [OpnCall(data[p], data[p + 1], Port(op))])
    else if IsCopied(op) then Step(false, p, [Raw([op])])
    else Step(false, p + Skip(op), [])
  }

  /** What the converter emits from `pos` on: the walk until the data ends or a command lacks its operands. */
  function ConvertFrom(data: seq<byte>, pos: nat): seq<Piece>
    decreases |data| - pos
  {
    if pos >= |data| then []
    else
      var s := StepAt(data, pos);
      if s.stop then [] else s.out + ConvertFrom(data, s.next)
  }

  lemma ConvertUnfold(data: seq<byte>, pos: nat)
    requires pos < |data|
    ensures var s := StepAt(data, pos);
      ConvertFrom(data, pos) == if s.stop then [] else s.out + ConvertFrom(data, s.next)
  {
  }

  /**
   * The converter's loop over the song body in memory: the pieces it emits,
   * in order, are the walk from the first byte.
   */
  lemma ConvertDone(data: seq<byte>, pos: nat)
    requires pos >= |data|
    ensures ConvertFrom(data, pos) == []
  {
  }

  method Convert(data: seq<byte>) returns (out: seq<Piece>)
    ensures out == ConvertFrom(data, 0)
  {
    hide ConvertFrom;
    out := [];
    var pos: nat := 0;
    while pos < |data|
      invariant out + ConvertFrom(data, pos) == ConvertFrom(data, 0)
      decreases |data| - pos
    {
      ConvertUnfold(data, pos);
      var op := data[pos];
      var p := pos + 1;
      if IsOpnWrite(op) || op == 0x61 {
        if p + 2 > |data| {
          break;
        }
        if op == 0x61 {
          var w := Le16(data[p], data[p + 1]);
          out := out + [Raw([0x61, w % 0x100, w / 0x100])];
        } else {
          out := out + [OpnCall(data[p], data[p + 1], Port(op))];
        }
        pos := p + 2;
      } else if IsCopied(op) {
        out := out + [Raw([op])];
        pos := p;
      } else {
        pos := p + Skip(op);
      }
    }
    if pos >= |data| {
      ConvertDone(data, pos);
    }
  }

  // ----------------------------------------------- what each command does

  /** An OPN write with both operands reaches the transcoder with its register, value and port, and the walk moves three bytes on. */
  lemma OpnWriteConverted(data: seq<byte>, pos: nat)
    requires pos + 3 <= |data| && IsOpnWrite(data[pos])
    ensures var s := StepAt(data, pos);
      !s.stop && s.next == pos + 3 && |s.out| == 1 && s.out[0].OpnCall? &&
      s.out[0].addr == data[pos + 1] && s.out[0].data == data[pos + 2] &&
      (s.out[0].port == 1 <==> data[pos] == 0x53 || data[pos] == 0x57)
  {
  }

  /** A 0x61 wait with both operands reaches the cache as the same three bytes. */
  lemma WaitReemitted(data: seq<byte>, pos: nat)
    requires pos + 3 <= |data| && data[pos] == 0x61
    ensures StepAt(data, pos) == Step(false, pos + 3, [Raw(data[pos..pos + 3])])
  {
    var w := Le16(data[pos + 1], data[pos + 2]);
    assert [0x61 as byte, w % 0x100, w / 0x100] == data[pos..pos + 3];
  }

  /** The frame waits, 0x66 and the short waits are copied as they are, one byte each. */
  lemma OneByteCommandsCopied(data: seq<byte>, pos: nat)
    requires pos < |data| && IsCopied(data[pos])
    ensures StepAt(data, pos) == Step(false, pos + 1, [Raw([data[pos]])])
  {
  }

  /**
   * Every other opcode emits nothing: the data block (0x67) moves the walk
   * exactly seven bytes on whatever its size field says, a PCM seek (0xE0)
   * five, a YM2612 PCM write (0x80..0x8F) two, and any other opcode only
   * itself, whatever operands it has.
   */
  lemma OthersSkipped(data: seq<byte>, pos: nat)
    requires pos < |data|
    requires var op := data[pos]; !IsOpnWrite(op) && op != 0x61 && !IsCopied(op)
    ensures var s := StepAt(data, pos); !s.stop && s.out == [] && s.next == pos + 1 + Skip(data[pos])
    ensures data[pos] == 0x67 ==> StepAt(data, pos).next == pos + 7
  {
  }

  /** A write or a 0x61 cut off by the end of the data ends the walk with nothing more emitted. */
  lemma TruncatedCommandEnds(data: seq<byte>, pos: nat)
    requires pos < |data| && pos + 3 > |data|
    requires IsOpnWrite(data[pos]) || data[pos] == 0x61
    ensures ConvertFrom(data, pos) == []
  {
  }

  /** Whether a piece is the end-of-data marker. */
  predicate IsEnd(p: Piece)
  {
    p == Raw([0x66])
  }

  /**
   * The converter adds no end marker of its own: a 0x66 reaches the cache
   * only when a 0x66 byte is in the data from `pos` on.
   */
  lemma {:induction false} NoEndAdded(data: seq<byte>, pos: nat)
    requires forall i :: pos <= i < |data| ==> data[i] != 0x66
    ensures forall k :: 0 <= k < |ConvertFrom(data, pos)| ==> !IsEnd(ConvertFrom(data, pos)[k])
    decreases |data| - pos
  {
    if pos < |data| {
      var s := StepAt(data, pos);
      if !s.stop {
        NoEndAdded(data, s.next);
        forall k | 0 <= k < |s.out| ensures !IsEnd(s.out[k]) {
          if data[pos] == 0x61 {
            assert s.out[k].bytes[0] == 0x61;
          }
        }
      }
    }
  }

  // --------------------------------------------------------- the findings

  /**
   * An SN76489 write (0x50) is followed by its data byte, which the walk
   * reads as the next opcode: a data byte of 0x80 then swallows the opcode
   * of the 16-sample wait after it, and the cache loses the wait. The
   * corrected walk keeps it.
   */
  lemma OperandReadAsOpcode()
    ensures var d: seq<byte> := [0x50, 0x80, 0x61, 0x10, 0x00];
      ConvertFrom(d, 0) == [] && IntendedFrom(d, 0) == [Raw([0x61, 0x10, 0x00])]
  {
    var d: seq<byte> := [0x50, 0x80, 0x61, 0x10, 0x00];
    assert StepAt(d, 0) == Step(false, 1, []);
    assert StepAt(d, 1) == Step(false, 3, []);
    assert StepAt(d, 3) == Step(false, 4, []);
    assert StepAt(d, 4) == Step(false, 5, []);
    assert ConvertFrom(d, 4) == [];
    assert ConvertFrom(d, 3) == [];
    assert ConvertFrom(d, 1) == [];
    assert IntendedStep(d, 0) == Step(false, 2, []);
    var w := Le16(0x10, 0x00);
    assert w == 0x10;
    assert IntendedStep(d, 2) == Step(false, 5, [Raw([0x61, 0x10, 0x00])]);
    assert IntendedFrom(d, 2) == [Raw([0x61, 0x10, 0x00])];
  }

  /**
   * A data block whose one sample byte is 0x66: the walk steps over the
   * block's seven header bytes only, reads the sample as a command and
   * copies an end marker into the cache, where playback then stops. The
   * corrected walk steps over the whole block.
   */
  lemma BlockBytesReadAsCommands()
    ensures var d: seq<byte> := [0x67, 0x66, 0x00, 0x01, 0x00, 0x00, 0x00, 0x66, 0x62];
      ConvertFrom(d, 0) == [Raw([0x66]), Raw([0x62])] && IntendedFrom(d, 0) == [Raw([0x62])]
  {
    var d: seq<byte> := [0x67, 0x66, 0x00, 0x01, 0x00, 0x00, 0x00, 0x66, 0x62];
    assert StepAt(d, 0) == Step(false, 7, []);
    assert StepAt(d, 7) == Step(false, 8, [Raw([0x66])]);
    assert StepAt(d, 8) == Step(false, 9, [Raw([0x62])]);
    assert ConvertFrom(d, 8) == [Raw([0x62])];
    assert ConvertFrom(d, 7) == [Raw([0x66]), Raw([0x62])];
    assert BlockSizeAt(d, 1) == 1;
    assert IntendedStep(d, 0) == Step(false, 8, []);
    assert IntendedStep(d, 8) == Step(false, 9, [Raw([0x62])]);
    assert IntendedFrom(d, 8) == [Raw([0x62])];
  }

  // ----------------------------------------------- the walk as intended

  /** The size field of a data block whose marker byte is at `p`. */
  function BlockSizeAt(data: seq<byte>, p: nat): nat
    requires p + 6 <= |data|
  {
    Le32(data[p + 2], data[p + 3], data[p + 4], data[p + 5])
  }

  /**
   * The corrected step: writes, waits and the copied commands as before; a
   * data block is stepped over whole (its seven header bytes and its size),
   * and any other command over its full length in the VGM command table, so
   * the walk stays on opcodes. A command cut off by the end of the data ends
   * the walk.
   */
  function IntendedStep(data: seq<byte>, pos: nat): (s: Step)
    requires pos < |data|
    ensures s.next > pos
    ensures !s.stop ==> s.next <= |data|
  {
    var op := data[pos];
    var p := pos + 1;
    if op == 0x67 then
      if p + 6 > |data| then Step(true, p, [])
      else if data[p] != 0x66 then Step(false, p + 6, [])
      else if p + 6 + BlockSizeAt(data, p) > |data| then Step(true, p, [])
      else Step(false, p + 6 + BlockSizeAt(data, p), [])
    else if pos + V0915VgmParser.CmdLen(op) > |data| then Step(true, p, [])
    else if IsOpnWrite(op) || op == 0x61 || IsCopied(op) then StepAt(data, pos)
    else Step(false, pos + V0915VgmParser.CmdLen(op), [])
  }

  /** The corrected walk from `pos` on. */
  function IntendedFrom(data: seq<byte>, pos: nat): seq<Piece>
    decreases |data| - pos
  {
    if pos >= |data| then []
    else
      var s := IntendedStep(data, pos);
      if s.stop then [] else s.out + IntendedFrom(data, s.next)
  }

  lemma IntendedUnfold(data: seq<byte>, pos: nat)
    requires pos < |data|
    ensures var s := IntendedStep(data, pos);
      IntendedFrom(data, pos) == if s.stop then [] else s.out + IntendedFrom(data, s.next)
  {
  }

  /** What a song command should become in the cache: OPN writes for the transcoder, waits and the end marker copied, every other write dropped. */
  function Expected(c: Cmd): (out: seq<Piece>)
    requires V0903VgmCommand.WellFormed(c)
    ensures |out| <= 1
    ensures c.OpnWrite? && c.op != 0x54 ==> out == [OpnCall(c.addr, c.data, Port(c.op))]
    ensures V0903VgmCommand.Samples(c, 735, 882) > 0 || c.EndOfData? ==> out == [Raw(V0903VgmCommand.Encode(c))]
    ensures c.SnWrite? || c.AyWrite? || (c.OpnWrite? && c.op == 0x54) ==> out == []
  {
    match c
    case OpnWrite(op, a, d) => if op == 0x54 then [] else [OpnCall(a, d, Port(op))]
    case SnWrite(_) => []
    case AyWrite(_, _) => []
    case _ => [Raw(V0903VgmCommand.Encode(c))]
  }

  function ExpectedAll(cmds: seq<Cmd>): seq<Piece>
    requires forall i :: 0 <= i < |cmds| ==> V0915VgmParser.Plain(cmds[i])
  {
    if cmds == [] then [] else assert V0915VgmParser.Plain(cmds[0]); Expected(cmds[0]) + ExpectedAll(cmds[1..])
  }

  /** One encoded song command, at `at`: the corrected step emits what it should become and moves past it. */
  lemma IntendedCommand(c: Cmd, data: seq<byte>, at: nat)
    requires V0903VgmCommand.WellFormed(c)
    requires var e := V0903VgmCommand.Encode(c); at + |e| <= |data| && data[at..at + |e|] == e
    ensures var e := V0903VgmCommand.Encode(c);
      IntendedStep(data, at) == Step(false, at + |e|, Expected(c))
  {
    var e := V0903VgmCommand.Encode(c);
    assert data[at] == e[0];
    if c.WaitSamples? {
      assert data[at + 1] == e[1] && data[at + 2] == e[2];
      var w := Le16(data[at + 1], data[at + 2]);
      assert w == c.n;
    } else if c.OpnWrite? || c.AyWrite? {
      assert data[at + 1] == e[1] && data[at + 2] == e[2];
    }
  }

  /** The first command of an encoded run, cut off the rest: its bytes, the rest's bytes just after, and its expected pieces first. */
  lemma SongHead(data: seq<byte>, at: nat, cmds: seq<Cmd>)
    requires forall i :: 0 <= i < |cmds| ==> V0915VgmParser.Plain(cmds[i])
    requires var b := V0915VgmParser.EncodeAll(cmds); at + |b| <= |data| && data[at..at + |b|] == b
    requires cmds != []
    ensures V0903VgmCommand.WellFormed(cmds[0])
    ensures var e := V0903VgmCommand.Encode(cmds[0]);
      var rest := V0915VgmParser.EncodeAll(cmds[1..]);
      |V0915VgmParser.EncodeAll(cmds)| == |e| + |rest| &&
      at + |e| <= |data| && data[at..at + |e|] == e &&
      data[at + |e|..at + |e| + |rest|] == rest &&
      ExpectedAll(cmds) == Expected(cmds[0]) + ExpectedAll(cmds[1..])
  {
    hide IntendedFrom, ConvertFrom, IntendedStep, StepAt, Expected, V0903VgmCommand.Encode;
    var c := cmds[0];
    assert V0915VgmParser.Plain(c);
    var e := V0903VgmCommand.Encode(c);
    var rest := V0915VgmParser.EncodeAll(cmds[1..]);
    assert V0915VgmParser.EncodeAll(cmds) == e + rest;
    SliceSplit(data, at, e, rest);
  }

  /** A slice holding `e + rest` holds `e` and then `rest`. */
  lemma SliceSplit(data: seq<byte>, at: nat, e: seq<byte>, rest: seq<byte>)
    requires at + |e| + |rest| <= |data| && data[at..at + |e| + |rest|] == e + rest
    ensures data[at..at + |e|] == e && data[at + |e|..at + |e| + |rest|] == rest
  {
    var whole := data[at..at + |e| + |rest|];
    assert data[at..at + |e|] == whole[..|e|];
    assert data[at + |e|..at + |e| + |rest|] == whole[|e|..];
  }

  /**
   * The corrected walk converts any encoded run of song commands command by
   * command, the end marker included, and resumes just after them.
   */
  lemma {:induction false} IntendedConvertsSong(data: seq<byte>, at: nat, cmds: seq<Cmd>)
    requires forall i :: 0 <= i < |cmds| ==> V0915VgmParser.Plain(cmds[i])
    requires var b := V0915VgmParser.EncodeAll(cmds); at + |b| <= |data| && data[at..at + |b|] == b
    ensures IntendedFrom(data, at) == ExpectedAll(cmds) + IntendedFrom(data, at + |V0915VgmParser.EncodeAll(cmds)|)
    decreases |cmds|
  {
    hide IntendedFrom, IntendedStep, StepAt, ConvertFrom, Expected, V0903VgmCommand.Encode;
    if cmds == [] {
      assert ExpectedAll(cmds) == [] && V0915VgmParser.EncodeAll(cmds) == [];
    } else {
      hide ExpectedAll, V0915VgmParser.EncodeAll;
      SongHead(data, at, cmds);
      var e := V0903VgmCommand.Encode(cmds[0]);
      var rest := V0915VgmParser.EncodeAll(cmds[1..]);
      IntendedCommand(cmds[0], data, at);
      IntendedUnfold(data, at);
      assert IntendedFrom(data, at) == Expected(cmds[0]) + IntendedFrom(data, at + |e|);
      IntendedConvertsSong(data, at + |e|, cmds[1..]);
      assert at + |V0915VgmParser.EncodeAll(cmds)| == at + |e| + |rest|;
    }
  }

  /** A whole song body ending in 0x66: the corrected walk emits what each command should become, then the end marker. */
  lemma IntendedConvertsBody(data: seq<byte>, at: nat, cmds: seq<Cmd>)
    requires forall i :: 0 <= i < |cmds| ==> V0915VgmParser.Plain(cmds[i])
    requires V0915VgmParser.SongAt(data, at, cmds)
    ensures IntendedFrom(data, at) ==
      ExpectedAll(cmds) + [Raw([0x66])] + IntendedFrom(data, at + |V0915VgmParser.EncodeAll(cmds)| + 1)
  {
    hide IntendedFrom, IntendedStep, ExpectedAll, V0915VgmParser.EncodeAll, Expected, StepAt, ConvertFrom;
    var n := |V0915VgmParser.EncodeAll(cmds)|;
    IntendedConvertsSong(data, at, cmds);
    var end := V0903VgmCommand.EndOfData;
    assert data[at + n..at + n + 1] == V0903VgmCommand.Encode(end);
    IntendedCommand(end, data, at + n);
    IntendedUnfold(data, at + n);
  }

  /** The corrected walk steps over a complete data block and emits nothing for it. */
  lemma IntendedSkipsBlock(data: seq<byte>, at: nat)
    requires at + 7 <= |data| && data[at] == 0x67 && data[at + 1] == 0x66
    requires at + 7 + BlockSizeAt(data, at + 1) <= |data|
    ensures IntendedFrom(data, at) == IntendedFrom(data, at + 7 + BlockSizeAt(data, at + 1))
  {
    IntendedUnfold(data, at);
  }

  /** Commands the converter as written gets right: OPN writes other than the YM2151's, and waits. */
  predicate OpnOnly(c: Cmd)
  {
    (c.OpnWrite? && c.op != 0x54) || c.WaitSamples? || c.WaitNtscFrame? || c.WaitPalFrame? || c.WaitShort?
  }

  /** An encoded OPN write or wait, at `at`: the step as written emits what it should become and moves past it. */
  lemma OpnOnlyStep(c: Cmd, data: seq<byte>, at: nat)
    requires V0903VgmCommand.WellFormed(c) && OpnOnly(c)
    requires var e := V0903VgmCommand.Encode(c); at + |e| <= |data| && data[at..at + |e|] == e
    ensures var e := V0903VgmCommand.Encode(c);
      StepAt(data, at) == Step(false, at + |e|, Expected(c))
  {
    IntendedCommand(c, data, at);
  }

  /** The rest of an OPN-only run of plain commands is one too. */
  lemma OpnSongTail(cmds: seq<Cmd>)
    requires forall i :: 0 <= i < |cmds| ==> V0915VgmParser.Plain(cmds[i]) && OpnOnly(cmds[i])
    requires cmds != []
    ensures forall i :: 0 <= i < |cmds[1..]| ==> V0915VgmParser.Plain(cmds[1..][i]) && OpnOnly(cmds[1..][i])
  {
    hide V0915VgmParser.Plain, OpnOnly;
    var tail := cmds[1..];
    forall i | 0 <= i < |tail|
      ensures V0915VgmParser.Plain(tail[i]) && OpnOnly(tail[i])
    {
      assert tail[i] == cmds[i + 1];
    }
  }

  lemma PiecesAssoc(a: seq<Piece>, b: seq<Piece>, c: seq<Piece>)
    ensures a + (b + c) == (a + b) + c
  {
  }

  /** The first command of an OPN-only run, converted as written, and the rest of the run just after it. */
  lemma OpnSongHead(data: seq<byte>, at: nat, cmds: seq<Cmd>)
    requires forall i :: 0 <= i < |cmds| ==> V0915VgmParser.Plain(cmds[i]) && OpnOnly(cmds[i])
    requires var b := V0915VgmParser.EncodeAll(cmds); at + |b| <= |data| && data[at..at + |b|] == b
    requires cmds != []
    ensures V0903VgmCommand.WellFormed(cmds[0])
    ensures var e := V0903VgmCommand.Encode(cmds[0]);
      var rest := V0915VgmParser.EncodeAll(cmds[1..]);
      |V0915VgmParser.EncodeAll(cmds)| == |e| + |rest| &&
      at + |e| + |rest| <= |data| && data[at + |e|..at + |e| + |rest|] == rest &&
      ExpectedAll(cmds) == Expected(cmds[0]) + ExpectedAll(cmds[1..]) &&
      ConvertFrom(data, at) == Expected(cmds[0]) + ConvertFrom(data, at + |e|)
  {
    hide IntendedFrom, IntendedStep, StepAt, ConvertFrom, Expected, V0903VgmCommand.Encode, OpnOnly, V0915VgmParser.Plain,
      ExpectedAll, V0915VgmParser.EncodeAll;
    SongHead(data, at, cmds);
    OpnOnlyStep(cmds[0], data, at);
    ConvertUnfold(data, at);
  }

  /**
   * On a body holding only OPN writes and waits, the walk as written agrees
   * with the corrected one: both convert it command by command.
   */
  lemma {:induction false} AsWrittenConvertsOpnSong(data: seq<byte>, at: nat, cmds: seq<Cmd>)
    requires forall i :: 0 <= i < |cmds| ==> V0915VgmParser.Plain(cmds[i]) && OpnOnly(cmds[i])
    requires var b := V0915VgmParser.EncodeAll(cmds); at + |b| <= |data| && data[at..at + |b|] == b
    ensures ConvertFrom(data, at) == ExpectedAll(cmds) + ConvertFrom(data, at + |V0915VgmParser.EncodeAll(cmds)|)
    decreases |cmds|
  {
    hide IntendedFrom, IntendedStep, StepAt, ConvertFrom, Expected, V0903VgmCommand.Encode, OpnOnly, V0915VgmParser.Plain;
    if cmds == [] {
      assert ExpectedAll(cmds) == [] && V0915VgmParser.EncodeAll(cmds) == [];
    } else {
      hide ExpectedAll, V0915VgmParser.EncodeAll;
      OpnSongHead(data, at, cmds);
      var e := V0903VgmCommand.Encode(cmds[0]);
      var rest := V0915VgmParser.EncodeAll(cmds[1..]);
      var tail := cmds[1..];
      OpnSongTail(cmds);
      AsWrittenConvertsOpnSong(data, at + |e|, tail);
      PiecesAssoc(Expected(cmds[0]), ExpectedAll(tail), ConvertFrom(data, at + |e| + |rest|));
    }
  }

  // ------------------------------------------------------- cache header

  /**
   * One 32-bit word of the header `vgm_play` writes over the placeholder:
   * the magic, the end-of-file offset, the source's version, the GD3 offset
   * relative to 0x14, the source's total samples, no loop, the rate, the
   * YM2151 clock, and from version 1.50 the data offset relative to 0x34.
   */
  function CacheWord(src: V0903VgmHeader.Header, finalSize: nat, gd3Start: nat, opmClock: u32, k: nat): (w: u32)
  {
    if k == 0 then V0903VgmCache.MAGIC_WORD
    else if k == 0x04 / 4 then (finalSize - 4) % TWO32
    else if k == 0x08 / 4 then src.version
    else if k == 0x14 / 4 then (if gd3Start > 0 then (gd3Start - 0x14) % TWO32 else 0)
    else if k == 0x18 / 4 then src.totalSamples
    else if k == 0x1C / 4 then 0
    else if k == 0x20 / 4 then 0
    else if k == 0x24 / 4 then src.rate
    else if k == 0x30 / 4 then opmClock
    else if k == 0x34 / 4 then (if src.version >= 0x150 then V0903VgmCache.DATA_START - 0x34 else 0)
    else 0
  }

  function CacheHeader(src: V0903VgmHeader.Header, finalSize: nat, gd3Start: nat, opmClock: u32): (b: seq<byte>)
    ensures |b| == 0x100
  {
    V0903VgmCache.WordsToBytes(seq(0x40, k requires 0 <= k < 0x40 => CacheWord(src, finalSize, gd3Start, opmClock, k)))
  }

  /** The v0.87 header is the later builder's header for a song with no converted loop. */
  lemma CacheHeaderHasNoLoop(src: V0903VgmHeader.Header, finalSize: nat, gd3Start: nat, opmClock: u32, loopCount: int)
    ensures CacheHeader(src, finalSize, gd3Start, opmClock) == V0903VgmCache.CacheHeader(src, finalSize, gd3Start, 0, loopCount, opmClock)
  {
    var w := seq(0x40, k requires 0 <= k < 0x40 => CacheWord(src, finalSize, gd3Start, opmClock, k));
    assert w == V0903VgmCache.CacheWords(src, finalSize, gd3Start, 0, loopCount, opmClock);
  }

  /**
   * Read back by the player, the cache's header has the source's version,
   * samples and rate, an end-of-file offset four short of the file's size,
   * no loop point and no loop samples, and the YM2151 as the only chip.
   */
  lemma CacheHeaderParses(src: V0903VgmHeader.Header, finalSize: nat, gd3Start: nat, opmClock: u32, body: seq<byte>)
    requires gd3Start == 0 || 0x100 <= gd3Start < TWO32
    ensures var file := CacheHeader(src, finalSize, gd3Start, opmClock) + body;
      var h := V0903VgmHeader.ParsedHeader(file);
      h == Some(V0903VgmCache.CachedSongHeader(src, finalSize, 0, 1, opmClock)) &&
      h.value.eofOffset == (finalSize - 4) % TWO32 && h.value.loopOffset == 0 && h.value.loopSamples == 0 &&
      h.value.version == src.version && h.value.totalSamples == src.totalSamples &&
      V0903VgmHeader.Gd3OffsetOf(file) == gd3Start
  {
    CacheHeaderHasNoLoop(src, finalSize, gd3Start, opmClock, 1);
    V0903VgmCache.CacheHeaderParses(src, finalSize, gd3Start, 0, 1, opmClock, body);
  }
}
