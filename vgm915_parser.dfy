// The stand-alone VGM command lister of v0.915/vgm_parser.c: its table of
// command lengths, the data start it derives from the header, and the walk
// over the command stream that prints one line per command inside a time
// window while it adds up the samples waited.

module V0915VgmParser {
  import opened Bytes
  import V0903VgmHeader
  import V0903VgmCommand
  import V0903VgmCache

  // ------------------------------------------------------ command lengths

  /**
   * `g_cmd_info[op].len`: the length of a command in bytes, the opcode
   * included. The data block (0x67) is listed as one byte; the walk reads
   * its size field itself.
   */
  function CmdLen(op: byte): (n: nat)
    ensures 1 <= n <= 12
  {
    if op < 0x30 then 1
    else if op < 0x40 then 2
    else if op < 0x4F then 3
    else if op < 0x51 then 2
    else if op < 0x60 then 3
    else if op == 0x61 then 3
    else if op == 0x68 then 12
    else if op < 0x90 then 1
    else if op == 0x90 || op == 0x91 || op == 0x95 then 5
    else if op == 0x92 then 6
    else if op == 0x93 then 11
    else if op == 0x94 then 2
    else if op < 0xA0 then 1
    else if op < 0xC0 then 3
    else if op < 0xE0 then 4
    else if op < 0xF0 then 5
    else 1
  }

  /**
   * The command classes of the VGM format as the table gives them: a wait
   * or a chip write with a register and a value is three bytes, the frame
   * waits, the end, the data block opcode and the short waits are one, the
   * 0xC0..0xDF writes are four and the 0xE0..0xEF ones five.
   */
  lemma CmdLenClasses(op: byte)
    ensures op == 0x61 || 0x51 <= op <= 0x5F || 0xA0 <= op <= 0xBF ==> CmdLen(op) == 3
    ensures op == 0x62 || op == 0x63 || op == 0x66 || op == 0x67 || 0x70 <= op <= 0x7F ==> CmdLen(op) == 1
    ensures 0x80 <= op <= 0x8F ==> CmdLen(op) == 1
    ensures op == 0x4F || op == 0x50 || 0x30 <= op <= 0x3F ==> CmdLen(op) == 2
    ensures 0xC0 <= op <= 0xDF ==> CmdLen(op) == 4
    ensures 0xE0 <= op <= 0xEF ==> CmdLen(op) == 5
    ensures op < 0x30 || 0xF0 <= op ==> CmdLen(op) == 1
  {
  }

  /**
   * The table agrees with the operand counts the v0.903 player reads for
   * every opcode it interprets (v0.903/console_player/vgm.c).
   */
  lemma TableAgreesWithPlayer(op: byte)
    requires op == 0x50 || op == 0xA0 || 0x52 <= op <= 0x57 || op == 0x61 || op == 0x62 || op == 0x63 ||
             op == 0x66 || 0x70 <= op <= 0x7F
    ensures CmdLen(op) == 1 + V0903VgmCommand.Operands(op)
  {
  }

  /**
   * The v0.903 cache builder skips the operand count of the table for the
   * chip writes it copies or converts, and a different count for the
   * YM2612 PCM writes 0x80..0x8F, the DAC stream commands 0x90, 0x91 and
   * 0x95, the four-byte writes 0xC3..0xC8 and 0xD0..0xD6 and the C352 write
   * 0xE1.
   */
  lemma TableAgainstCacheBuilder(op: byte)
    ensures (op == 0x4F || op == 0x50 || op == 0x51 || 0x52 <= op <= 0x5F || op == 0x61 || op == 0xA0 ||
             0xB0 <= op <= 0xB8 || op == 0xE0) ==> CmdLen(op) == 1 + V0903VgmCache.Need(op)
    ensures (0x80 <= op <= 0x8F || op == 0x90 || op == 0x91 || op == 0x95 || 0xC3 <= op <= 0xC8 ||
             0xD0 <= op <= 0xD6 || op == 0xE1) ==> CmdLen(op) != 1 + V0903VgmCache.Need(op)
  {
  }

  // ---------------------------------------------------------- data start

  /**
   * Where the commands start, from the first 0x40 header bytes: the relative
   * field at 0x34 from version 1.50 on when it is not zero, 0x40 otherwise.
   * The sum is a `uint32_t` and wraps.
   */
  function DataStart(hdr: seq<byte>): (d: u32)
    requires |hdr| >= 0x40
    ensures Le32At(hdr, 0x08) < 0x150 || Le32At(hdr, 0x34) == 0 ==> d == 0x40
    ensures Le32At(hdr, 0x08) >= 0x150 && Le32At(hdr, 0x34) != 0 ==> d == (0x34 + Le32At(hdr, 0x34)) % TWO32
  {
    var version := Le32At(hdr, 0x08);
    var field := Le32At(hdr, 0x34);
    if version >= 0x150 && field > 0 then (0x34 + field) % TWO32 else 0x40
  }

  /**
   * The lister and the v0.903 header reader find the same data start, except
   * for the one field value whose sum wraps to 0: the reader then falls back
   * to 0x40, the lister starts at offset 0.
   */
  lemma DataStartAgreesWithPlayer(b: seq<byte>)
    requires |b| == 0x100
    ensures var field := Le32At(b, 0x34);
      field != TWO32 - 0x34 ==> DataStart(b) == V0903VgmHeader.DataOffsetOf(b, Le32At(b, 0x08))
    ensures Le32At(b, 0x08) >= 0x150 && Le32At(b, 0x34) == TWO32 - 0x34 ==>
      DataStart(b) == 0 && V0903VgmHeader.DataOffsetOf(b, Le32At(b, 0x08)) == 0x40
  {
  }

  // ---------------------------------------------------------------- walk

  /**
   * The print window in samples: from `start`, up to but excluding `end`;
   * `None` is the "no end" the program writes as -1.
   */
  datatype Window = Window(start: nat, end: Option<nat>)

  /** `should_print`. */
  predicate Shown(w: Window, total: nat)
  {
    total >= w.start && (w.end.None? || total < w.end.value)
  }

  /** A printed line: the time in samples, the file offset shown, the opcode, and whether its operands were there. */
  datatype Line = Line(samples: nat, offset: int, op: byte, complete: bool)

  /** How the walk ends: at the end of the file, on a cut-off command, at 0x66, or at the end of the window. */
  datatype Stop = EndOfFile | Incomplete | EndCommand | EndTime

  datatype Walked = Walked(lines: seq<Line>, total: nat, stop: Stop)

  /** The samples a command with its operands waits. */
  function Wait(op: byte, args: seq<byte>): (n: nat)
    requires |args| == CmdLen(op) - 1
    ensures n < 0x1_0000
    ensures op != 0x61 && op != 0x62 && op != 0x63 && !(0x70 <= op <= 0x7F) ==> n == 0
  {
    if op == 0x61 then Le16(args[0], args[1])
    else if op == 0x62 then 735
    else if op == 0x63 then 882
    else if 0x70 <= op <= 0x7F then op % 0x10 + 1
    else 0
  }

  /**
   * The data block's size field: four bytes after the compatibility 0x66 and
   * the type, 0 when the file ends before them.
   */
  function BlockSize(data: seq<byte>, at: nat): (n: u32)
  {
    if at + 4 <= |data| then Le32At(data, at) else 0
  }

  /** Where the stream is after a data block whose opcode ended at `p`. */
  function BlockEnd(data: seq<byte>, p: nat): (q: nat)
    ensures q >= p + 2
  {
    After(data, p + 2, 4) + BlockSize(data, p + 2)
  }

  /**
   * One pass of the loop at stream position `pos`: the line it shows (none
   * outside the window), how the walk ends there if it does, and otherwise
   * the next stream position, shown offset and sample total.
   */
  datatype Step = Step(line: seq<Line>, done: Option<Stop>, next: nat, cur: int, total: nat)

  function StepAt(data: seq<byte>, pos: nat, cur: int, total: nat, w: Window): (s: Step)
    requires pos < |data|
    ensures s.done.None? ==> s.next > pos && !(w.end.Some? && s.total >= w.end.value)
    ensures s.total >= total && s.total < total + 0x1_0000
    ensures s.done.Some? && s.done.value != EndTime ==> s.total == total
    ensures s.done == Some(EndTime) ==> w.end.Some? && s.total >= w.end.value
    ensures s.done != Some(EndOfFile)
    ensures s.line == (if Shown(w, total) then [Line(total, cur, data[pos], s.done != Some(Incomplete))] else [])
  {
    var op := data[pos];
    var p := pos + 1;
    var n := CmdLen(op) - 1;
    if After(data, p, n) != p + n then
      Step(if Shown(w, total) then [Line(total, cur, op, false)] else [], Some(Incomplete), p, cur, total)
    else
      var line := if Shown(w, total) then [Line(total, cur, op, true)] else [];
      if op == 0x66 then Step(line, Some(EndCommand), p, cur, total)
      else
        var next := if op == 0x67 then BlockEnd(data, p) else p + n;
        var cur' := if op == 0x67 then cur + 6 + BlockSize(data, p + 2) + 1 else cur + n + 1;
        var total' := total + Wait(op, data[p..p + n]);
        Step(line, if w.end.Some? && total' >= w.end.value then Some(EndTime) else None, next, cur', total')
  }

  /**
   * The walk from stream position `pos`, with `cur` the offset it shows and
   * `total` the samples so far: every line lies inside the window, the total
   * only grows, a walk stopped by the window has reached its end, and one
   * with an end overshoots it by less than one wait.
   */
  function WalkFrom(data: seq<byte>, pos: nat, cur: int, total: nat, w: Window): (r: Walked)
    ensures r.total >= total
    ensures forall i :: 0 <= i < |r.lines| ==> Shown(w, r.lines[i].samples)
    ensures r.stop == EndTime ==> w.end.Some? && r.total >= w.end.value
    ensures w.end.Some? && total < w.end.value && r.stop != EndTime ==> r.total < w.end.value
    ensures w.end.Some? && total < w.end.value ==> r.total < w.end.value + 0x1_0000
    decreases |data| - pos
  {
    if pos >= |data| then Walked([], total, EndOfFile)
    else
      var s := StepAt(data, pos, cur, total, w);
      if s.done.Some? then Walked(s.line, s.total, s.done.value)
      else
        var rest := WalkFrom(data, s.next, s.cur, s.total, w);
        Walked(s.line + rest.lines, rest.total, rest.stop)
  }

  /** Every line shows the file offset of its own opcode. */
  predicate Locates(data: seq<byte>, lines: seq<Line>)
  {
    forall i :: 0 <= i < |lines| ==> 0 <= lines[i].offset < |data| && data[lines[i].offset] == lines[i].op
  }

  /**
   * The offset a line shows is where its opcode sits in the file: the count
   * kept beside the stream follows it through every command and data block
   * (after a block cut short the two part, but the walk then ends).
   */
  lemma {:induction false} OffsetsLocateOpcodes(data: seq<byte>, pos: nat, cur: int, total: nat, w: Window)
    requires cur == pos || pos >= |data|
    ensures Locates(data, WalkFrom(data, pos, cur, total, w).lines)
    decreases |data| - pos
  {
    if pos < |data| {
      var s := StepAt(data, pos, cur, total, w);
      if s.done.None? {
        StepKeepsOffset(data, pos, total, w);
        OffsetsLocateOpcodes(data, s.next, s.cur, s.total, w);
        var rest := WalkFrom(data, s.next, s.cur, s.total, w).lines;
        assert WalkFrom(data, pos, cur, total, w).lines == s.line + rest;
        forall i | 0 <= i < |rest| ensures data[rest[i].offset] == rest[i].op { }
      }
    }
  }

  /** A step that goes on moves the shown offset with the stream, or leaves the stream past the end. */
  lemma StepKeepsOffset(data: seq<byte>, pos: nat, total: nat, w: Window)
    requires pos < |data|
    ensures var s := StepAt(data, pos, pos, total, w);
      s.done.None? ==> s.cur == s.next || s.next >= |data|
  {
  }

  // ------------------------------------------------- a song's sample count

  /** A command of a song body: anything but the end of data. */
  predicate Plain(c: V0903VgmCommand.Cmd)
  {
    V0903VgmCommand.WellFormed(c) && c != V0903VgmCommand.EndOfData
  }

  function EncodeAll(cmds: seq<V0903VgmCommand.Cmd>): (b: seq<byte>)
    requires forall i :: 0 <= i < |cmds| ==> Plain(cmds[i])
  {
    if cmds == [] then [] else assert Plain(cmds[0]); V0903VgmCommand.Encode(cmds[0]) + EncodeAll(cmds[1..])
  }

  /** The samples a song body lasts, 735 and 882 for the two frame waits. */
  function SongSamples(cmds: seq<V0903VgmCommand.Cmd>): int
  {
    if cmds == [] then 0 else V0903VgmCommand.Samples(cmds[0], 735, 882) + SongSamples(cmds[1..])
  }

  /** One encoded command, read by the lister: a shown line, its wait, and the stream just past it. */
  lemma CommandStep(c: V0903VgmCommand.Cmd, data: seq<byte>, at: nat, total: nat)
    requires Plain(c)
    requires at + |V0903VgmCommand.Encode(c)| <= |data|
    requires data[at..at + |V0903VgmCommand.Encode(c)|] == V0903VgmCommand.Encode(c)
    ensures var e := V0903VgmCommand.Encode(c);
      var t := total + V0903VgmCommand.Samples(c, 735, 882);
      t >= 0 && StepAt(data, at, at, total, Window(0, None)) == Step([Line(total, at, data[at], true)], None, at + |e|, at + |e|, t)
  {
    var e := V0903VgmCommand.Encode(c);
    assert data[at] == e[0];
    assert data[at + 1..at + |e|] == e[1..];
  }

  /** The end command, read by the lister: a shown line and the end of the walk. */
  lemma EndStep(data: seq<byte>, at: nat, total: nat)
    requires at < |data| && data[at] == 0x66
    ensures StepAt(data, at, at, total, Window(0, None)) == Step([Line(total, at, 0x66, true)], Some(EndCommand), at + 1, at, total)
  {
  }

  /** A song body starts at `at` in `data` and an end command follows it. */
  predicate SongAt(data: seq<byte>, at: nat, cmds: seq<V0903VgmCommand.Cmd>)
    requires forall i :: 0 <= i < |cmds| ==> Plain(cmds[i])
  {
    var b := EncodeAll(cmds);
    at + |b| < |data| && data[at..at + |b|] == b && data[at + |b|] == 0x66
  }

  /** The first command of a song body, cut off the rest. */
  lemma SongSplit(data: seq<byte>, at: nat, cmds: seq<V0903VgmCommand.Cmd>)
    requires forall i :: 0 <= i < |cmds| ==> Plain(cmds[i])
    requires cmds != [] && SongAt(data, at, cmds)
    ensures Plain(cmds[0])
    ensures var e := V0903VgmCommand.Encode(cmds[0]);
      at + |e| <= |data| && data[at..at + |e|] == e && SongAt(data, at + |e|, cmds[1..])
  {
    var e := V0903VgmCommand.Encode(cmds[0]);
    var b := EncodeAll(cmds);
    var b' := EncodeAll(cmds[1..]);
    assert b == e + b';
    assert data[at..at + |e|] == b[..|e|];
    assert data[at + |e|..at + |e| + |b'|] == b[|e|..];
  }

  /**
   * Listing a song body closed by 0x66, with no window, shows one line per
   * command plus the end, stops at the end command, and adds up exactly the
   * samples the body lasts.
   */
  lemma {:induction false} WalkSong(data: seq<byte>, at: nat, cmds: seq<V0903VgmCommand.Cmd>, total: nat)
    requires forall i :: 0 <= i < |cmds| ==> Plain(cmds[i])
    requires SongAt(data, at, cmds)
    ensures var r := WalkFrom(data, at, at, total, Window(0, None));
      r.total == total + SongSamples(cmds) && r.stop == EndCommand && |r.lines| == |cmds| + 1
    decreases |cmds|
  {
    hide WalkFrom, StepAt;
    WalkFromUnfold(data, at, at, total, Window(0, None));
    if cmds == [] {
      EndStep(data, at, total);
    } else {
      var c := cmds[0];
      SongSplit(data, at, cmds);
      CommandStep(c, data, at, total);
      var t := total + V0903VgmCommand.Samples(c, 735, 882);
      WalkSong(data, at + |V0903VgmCommand.Encode(c)|, cmds[1..], t);
    }
  }

  /**
   * Listing a song body written by a VGM writer and closed by 0x66, wherever
   * it sits in a file, with no window: one line per command plus the end, a
   * stop at the end command, and exactly the samples the body lasts.
   */
  lemma WalkCountsSamples(cmds: seq<V0903VgmCommand.Cmd>, pre: seq<byte>, post: seq<byte>, total: nat)
    requires forall i :: 0 <= i < |cmds| ==> Plain(cmds[i])
    ensures var r := WalkFrom(pre + EncodeAll(cmds) + [0x66] + post, |pre|, |pre|, total, Window(0, None));
      r.total == total + SongSamples(cmds) && r.stop == EndCommand && |r.lines| == |cmds| + 1
  {
    var b := EncodeAll(cmds);
    var data := pre + b + [0x66] + post;
    assert data[|pre|..|pre| + |b|] == b;
    assert data[|pre| + |b|] == 0x66;
    WalkSong(data, |pre|, cmds, total);
  }

  // ------------------------------------------------------------ the program

  /** The program's result: the header could not be read, or the version, the data start and the walk. */
  datatype Listing = HeaderTooShort | Listed(version: u32, dataStart: u32, walked: Walked)

  lemma LinesAssoc(a: seq<Line>, b: seq<Line>, c: seq<Line>)
    ensures a + (b + c) == (a + b) + c
  {
  }

  /** `WalkFrom` one step down, for the loop that follows it. */
  lemma WalkFromUnfold(data: seq<byte>, pos: nat, cur: int, total: nat, w: Window)
    ensures pos >= |data| ==> WalkFrom(data, pos, cur, total, w) == Walked([], total, EndOfFile)
    ensures pos < |data| ==> var s := StepAt(data, pos, cur, total, w);
      WalkFrom(data, pos, cur, total, w) ==
        if s.done.Some? then Walked(s.line, s.total, s.done.value)
        else var rest := WalkFrom(data, s.next, s.cur, s.total, w); Walked(s.line + rest.lines, rest.total, rest.stop)
  {
  }

  /**
   * The data block's header after its opcode: the compatibility byte and
   * the type skipped, the size read, and the block's contents skipped.
   */
  method SkipBlock(fp: Stream) returns (size: u32)
    modifies fp
    ensures size == BlockSize(fp.data, old(fp.pos) + 2)
    ensures fp.pos == After(fp.data, old(fp.pos) + 2, 4) + size
  {
    fp.Seek(fp.pos + 2);
    var got := fp.Read(4);
    size := if |got| == 4 then Le32(got[0], got[1], got[2], got[3]) else 0;
    fp.Seek(fp.pos + size);
  }

  /**
   * One pass of the command loop: `eof` when no opcode could be read,
   * otherwise the step `StepAt` describes, with the stream at its next
   * position when the walk goes on.
   */
  method Pass(fp: Stream, cur: int, total: nat, w: Window) returns (eof: bool, s: Step)
    modifies fp
    ensures eof <==> old(fp.pos) >= |fp.data|
    ensures !eof ==> s == StepAt(fp.data, old(fp.pos), cur, total, w) && (s.done.None? ==> fp.pos == s.next)
  {
    var at := fp.pos;
    var b := fp.Read(1);
    if |b| != 1 {
      return true, Step([], None, at, cur, total);
    }
    var op := b[0];
    var n := CmdLen(op) - 1;
    var shown := Shown(w, total);
    var args: seq<byte> := [];
    if n > 0 {
      args := fp.Read(n);
      if |args| != n {
        return false, Step(if shown then [Line(total, cur, op, false)] else [], Some(Incomplete), at + 1, cur, total);
      }
    }
    assert args == fp.data[at + 1..at + 1 + n];
    var line := if shown then [Line(total, cur, op, true)] else [];
    var wait: nat := 0;
    var cur' := cur;
    if op == 0x61 {
      wait := Le16(args[0], args[1]);
    } else if op == 0x62 {
      wait := 735;
    } else if op == 0x63 {
      wait := 882;
    } else if op == 0x66 {
      return false, Step(line, Some(EndCommand), at + 1, cur, total);
    } else if op == 0x67 {
      var size := SkipBlock(fp);
      cur' := cur + 6 + size;
    } else if 0x70 <= op <= 0x7F {
      wait := op % 0x10 + 1;
    }
    var total' := total + wait;
    cur' := cur' + CmdLen(op);
    eof := false;
    s := Step(line, if w.end.Some? && total' >= w.end.value then Some(EndTime) else None, fp.pos, cur', total');
  }

  /**
   * The command loop of `main`, on a stream positioned at the data start:
   * it does what `WalkFrom` describes, showing offsets counted from there.
   */
  method Walk(fp: Stream, w: Window) returns (r: Walked)
    modifies fp
    ensures r == WalkFrom(fp.data, old(fp.pos), old(fp.pos), 0, w)
  {
    hide WalkFrom;
    ghost var goal := WalkFrom(fp.data, fp.pos, fp.pos, 0, w);
    var cur: int := fp.pos;
    var total: nat := 0;
    var lines: seq<Line> := [];
    while true
      invariant var rest := WalkFrom(fp.data, fp.pos, cur, total, w);
        goal == Walked(lines + rest.lines, rest.total, rest.stop)
      decreases |fp.data| - fp.pos
    {
      ghost var lines0 := lines;
      WalkFromUnfold(fp.data, fp.pos, cur, total, w);
      var eof, s := Pass(fp, cur, total, w);
      if eof {
        return Walked(lines, total, EndOfFile);
      }
      lines := lines + s.line;
      if s.done.Some? {
        return Walked(lines, s.total, s.done.value);
      }
      LinesAssoc(lines0, s.line, WalkFrom(fp.data, s.next, s.cur, s.total, w).lines);
      cur, total := s.cur, s.total;
    }
  }

  /**
   * `main` after the arguments are parsed and the files opened: the 0x40
   * header bytes, the data start, the seek there, and the walk.
   */
  method ListFile(fp: Stream, w: Window) returns (r: Listing)
    requires fp.pos == 0
    modifies fp
    ensures |fp.data| < 0x40 ==> r == HeaderTooShort
    ensures |fp.data| >= 0x40 ==> var d := DataStart(fp.data[..0x40]);
      r == Listed(Le32At(fp.data, 0x08), d, WalkFrom(fp.data, d, d, 0, w))
  {
    var hdr := fp.Read(0x40);
    if |hdr| != 0x40 {
      return HeaderTooShort;
    }
    var d := DataStart(hdr);
    fp.Seek(d);
    var walked := Walk(fp, w);
    r := Listed(Le32At(hdr, 0x08), d, walked);
  }
}
