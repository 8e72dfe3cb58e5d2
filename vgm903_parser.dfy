// The command lister `parse_vgm_commands` of v0.903/vgm_parser.c: the data
// start, the operand bytes it skips after each opcode, the samples it adds
// up, and the lines it prints inside a window of samples. Operands are read
// with `fgetc`, so a read past the end yields 0xFF and the loop ends at the
// next opcode.

module V0903VgmParser {
  import opened Bytes
  import V0903VgmCommand
  import V0915VgmParser

  // ---------------------------------------------------------- data start

  /**
   * The data start from the first 0x40 header bytes: the relative field at
   * 0x34 from version 1.50 on, 0x40 before or when it is 0; the sum wraps.
   */
  function DataStart(hdr: seq<byte>): (d: u32)
    requires |hdr| >= 0x40
  {
    var version := Le32At(hdr, 0x08);
    if version >= 0x150 then
      var field := Le32At(hdr, 0x34);
      if field != 0 then (0x34 + field) % TWO32 else 0x40
    else 0x40
  }

  /** The v0.903 lister and the v0.915 lister start the commands at the same offset. */
  lemma DataStartAgreesWithLister915(hdr: seq<byte>)
    requires |hdr| >= 0x40
    ensures DataStart(hdr) == V0915VgmParser.DataStart(hdr)
  {
  }

  // ------------------------------------------------------ operand counts

  /** Which operand counts the walk uses: the switch as written, or the VGM command lengths. */
  datatype Table = AsWritten | Corrected

  /**
   * The operand bytes the switch reads after an opcode other than 0x67:
   * two for 0x54..0x5F, 0xA0 and 0x61, one for its "dual-byte" list, two for
   * its "triple-byte" list, four for 0xE0 and none for anything else.
   */
  function SkippedAsWritten(op: byte): (n: nat)
  {
    if 0x54 <= op <= 0x5F || op == 0xA0 || op == 0x61 then 2
    else if op == 0x30 || 0x40 <= op <= 0x4F || 0xB0 <= op <= 0xBF || 0xC5 <= op <= 0xC8 || op == 0xD3 || op == 0xD4 then 1
    else if 0xC0 <= op <= 0xC4 || 0xD0 <= op <= 0xD2 then 2
    else if op == 0xE0 then 4
    else 0
  }

  /** The operand bytes skipped after an opcode other than 0x67. */
  function Operands(t: Table, op: byte): (n: nat)
    ensures op == 0x61 ==> n == 2
    ensures t == Corrected ==> n == V0915VgmParser.CmdLen(op) - 1
  {
    match t
    case AsWritten => SkippedAsWritten(op)
    case Corrected => V0915VgmParser.CmdLen(op) - 1
  }

  /**
   * The switch skips fewer or more operands than the VGM format gives for
   * the SN76489 and YM2413 writes, the first YM2612 port pair, the
   * 0x40..0x4E and 0xB0..0xBF writes and most of 0xC0..0xD6; it agrees for
   * the writes it prints and for the waits.
   */
  lemma SkippedAgainstFormat(op: byte)
    ensures (0x54 <= op <= 0x5F || op == 0xA0 || op == 0x61 || op == 0x62 || op == 0x63 || op == 0x66 ||
             0x70 <= op <= 0x7F || op == 0x30 || op == 0x4F || op == 0xE0) ==> Operands(AsWritten, op) == Operands(Corrected, op)
    ensures (0x50 <= op <= 0x53 || 0x40 <= op <= 0x4E || 0xB0 <= op <= 0xBF || 0xC0 <= op <= 0xC8 ||
             0xD0 <= op <= 0xD4) ==> Operands(AsWritten, op) != Operands(Corrected, op)
  {
  }

  // ---------------------------------------------------------------- walk

  /** The window in samples: a line is shown from `start` up to and including `end`. */
  datatype Window = Window(start: nat, end: nat)

  /** A printed line: the samples so far and the opcode it describes. */
  datatype Line = Line(samples: nat, op: byte)

  /** How the walk ends: at the end of the file, at 0x66, or past the end time. */
  datatype Stop = EndOfFile | EndCommand | EndTime

  datatype Walked = Walked(lines: seq<Line>, total: nat, stop: Stop)

  datatype Step = Step(line: seq<Line>, done: Option<Stop>, next: nat, total: nat)

  /** `fgetc` at `i`, converted to `uint8_t`: the byte there, or 0xFF (from EOF) past the end. */
  function ByteAt(data: seq<byte>, i: nat): byte
  {
    if i < |data| then data[i] else 0xFF
  }

  /** `n` bytes read one by one with `fgetc` from `p`. */
  function Getc(data: seq<byte>, p: nat, n: nat): (a: seq<byte>)
    ensures |a| == n
    ensures forall k :: 0 <= k < n ==> a[k] == ByteAt(data, p + k)
    decreases n
  {
    if n == 0 then [] else [ByteAt(data, p)] + Getc(data, p + 1, n - 1)
  }

  /** The commands the switch prints a line for. */
  predicate Printed(op: byte)
  {
    0x54 <= op <= 0x5F || op == 0x61 || op == 0x62 || op == 0x63 || op == 0x66 || op == 0x67 || op == 0xA0 ||
    0x70 <= op <= 0x7F
  }

  /** The samples an opcode with its operands adds. */
  function Wait(op: byte, a: seq<byte>): (n: nat)
    requires op == 0x61 ==> |a| >= 2
    ensures n < 0x1_0000
    ensures op != 0x61 && op != 0x62 && op != 0x63 && !(0x70 <= op <= 0x7F) ==> n == 0
  {
    if op == 0x61 then Le16(a[0], a[1])
    else if op == 0x62 then 735
    else if op == 0x63 then 882
    else if 0x70 <= op <= 0x7F then op % 0x10 + 1
    else 0
  }

  /** A data block's size, from the four bytes after the compatibility byte and the type. */
  function BlockSize(data: seq<byte>, p: nat): u32
  {
    Le32(ByteAt(data, p + 2), ByteAt(data, p + 3), ByteAt(data, p + 4), ByteAt(data, p + 5))
  }

  /**
   * One pass of the `while` loop at stream position `pos`: past the end time
   * it stops before the command; the end command stops after its line (shown
   * also before the window); a data block skips its six header bytes and its
   * contents; any other opcode skips its operands and adds its wait.
   */
  function StepAt(t: Table, data: seq<byte>, pos: nat, total: nat, w: Window): (s: Step)
    requires pos < |data|
    ensures s.next > pos && s.total >= total && s.total < total + 0x1_0000
    ensures s.done.Some? ==> s.total == total
    ensures s.done == Some(EndTime) <==> total > w.end
    ensures s.done != Some(EndOfFile)
    ensures forall i :: 0 <= i < |s.line| ==>
      (s.line[i] == Line(total, data[pos]) && total <= w.end && (total >= w.start || data[pos] == 0x66))
  {
    var op := data[pos];
    var p := pos + 1;
    var shown := w.start <= total <= w.end;
    if total > w.end then Step([], Some(EndTime), p, total)
    else if op == 0x66 then Step(if shown || total < w.start then [Line(total, op)] else [], Some(EndCommand), p, total)
    else if op == 0x67 then Step(if shown then [Line(total, op)] else [], None, After(data, p, 6) + BlockSize(data, p), total)
    else
      var n := Operands(t, op);
      Step(if shown && Printed(op) then [Line(total, op)] else [], None, After(data, p, n), total + Wait(op, Getc(data, p, n)))
  }

  /**
   * The walk from stream position `pos` with `total` samples so far: lines
   * are shown only up to the end of the window, and from its start except
   * for the end command; the total only grows, and a walk stopped by the
   * end time has passed it.
   */
  function WalkFrom(t: Table, data: seq<byte>, pos: nat, total: nat, w: Window): (r: Walked)
    ensures r.total >= total
    ensures forall i :: 0 <= i < |r.lines| ==>
      (r.lines[i].samples <= w.end && (r.lines[i].samples >= w.start || r.lines[i].op == 0x66))
    ensures r.stop == EndTime ==> r.total > w.end
    decreases |data| - pos
  {
    if pos >= |data| then Walked([], total, EndOfFile)
    else
      var s := StepAt(t, data, pos, total, w);
      if s.done.Some? then Walked(s.line, s.total, s.done.value)
      else
        var rest := WalkFrom(t, data, s.next, s.total, w);
        Walked(s.line + rest.lines, rest.total, rest.stop)
  }

  /** `WalkFrom` one step down. */
  lemma WalkFromUnfold(t: Table, data: seq<byte>, pos: nat, total: nat, w: Window)
    ensures pos >= |data| ==> WalkFrom(t, data, pos, total, w) == Walked([], total, EndOfFile)
    ensures pos < |data| ==> var s := StepAt(t, data, pos, total, w);
      WalkFrom(t, data, pos, total, w) ==
        if s.done.Some? then Walked(s.line, s.total, s.done.value)
        else var rest := WalkFrom(t, data, s.next, s.total, w); Walked(s.line + rest.lines, rest.total, rest.stop)
  {
  }

  // ------------------------------------------------- a song's sample count

  /** One encoded command, read with the corrected operand counts: its wait, and the stream just past it. */
  lemma CommandStep(c: V0903VgmCommand.Cmd, data: seq<byte>, at: nat, total: nat, w: Window)
    requires V0915VgmParser.Plain(c)
    requires at + |V0903VgmCommand.Encode(c)| <= |data|
    requires data[at..at + |V0903VgmCommand.Encode(c)|] == V0903VgmCommand.Encode(c)
    requires total <= w.end
    ensures var e := V0903VgmCommand.Encode(c);
      var s := StepAt(Corrected, data, at, total, w);
      s.done.None? && s.next == at + |e| && s.total == total + V0903VgmCommand.Samples(c, 735, 882)
  {
    var e := V0903VgmCommand.Encode(c);
    assert data[at] == e[0];
    assert Getc(data, at + 1, |e| - 1) == e[1..];
  }

  /**
   * With the corrected operand counts, a song body closed by 0x66 whose
   * samples stay within the window's end is walked to its end command with
   * exactly the samples it lasts added.
   */
  lemma {:induction false} WalkSong(data: seq<byte>, at: nat, cmds: seq<V0903VgmCommand.Cmd>, total: nat, w: Window)
    requires forall i :: 0 <= i < |cmds| ==> V0915VgmParser.Plain(cmds[i])
    requires V0915VgmParser.SongAt(data, at, cmds)
    requires total + V0915VgmParser.SongSamples(cmds) <= w.end
    ensures var r := WalkFrom(Corrected, data, at, total, w);
      r.total == total + V0915VgmParser.SongSamples(cmds) && r.stop == EndCommand
    decreases |cmds|
  {
    hide WalkFrom, StepAt;
    WalkFromUnfold(Corrected, data, at, total, w);
    if cmds == [] {
      EndStep(data, at, total, w);
    } else {
      var c := cmds[0];
      V0915VgmParser.SongSplit(data, at, cmds);
      assert V0903VgmCommand.Samples(c, 735, 882) >= 0 by { assert V0915VgmParser.Plain(c); }
      SongSamplesNonNegative(cmds[1..]);
      CommandStep(c, data, at, total, w);
      var t := total + V0903VgmCommand.Samples(c, 735, 882);
      WalkSong(data, at + |V0903VgmCommand.Encode(c)|, cmds[1..], t, w);
    }
  }

  /** The end command within the window's end stops the walk where it is. */
  lemma EndStep(data: seq<byte>, at: nat, total: nat, w: Window)
    requires at < |data| && data[at] == 0x66 && total <= w.end
    ensures StepAt(Corrected, data, at, total, w).done == Some(EndCommand)
    ensures StepAt(Corrected, data, at, total, w).total == total
  {
  }

  lemma {:induction false} SongSamplesNonNegative(cmds: seq<V0903VgmCommand.Cmd>)
    requires forall i :: 0 <= i < |cmds| ==> V0915VgmParser.Plain(cmds[i])
    ensures V0915VgmParser.SongSamples(cmds) >= 0
    decreases |cmds|
  {
    if cmds != [] {
      assert V0915VgmParser.Plain(cmds[0]);
      SongSamplesNonNegative(cmds[1..]);
    }
  }

  /**
   * As written, the lister reads the register of a YM2612 write as the next
   * opcode: the write of 0x00 to register 0x62 becomes a 1/60 s frame wait,
   * while the song lasts no samples at all.
   */
  lemma AsWrittenMiscounts()
    ensures var cmds := [V0903VgmCommand.OpnWrite(0x52, 0x62, 0x00)];
      var data := V0915VgmParser.EncodeAll(cmds) + [0x66];
      V0915VgmParser.SongSamples(cmds) == 0 &&
      WalkFrom(AsWritten, data, 0, 0, Window(0, 44100)).total == 735 &&
      WalkFrom(Corrected, data, 0, 0, Window(0, 44100)).total == 0
  {
    var cmds := [V0903VgmCommand.OpnWrite(0x52, 0x62, 0x00)];
    var data := V0915VgmParser.EncodeAll(cmds) + [0x66];
    assert V0915VgmParser.EncodeAll(cmds) == [0x52, 0x62, 0x00] + V0915VgmParser.EncodeAll([]);
    assert data == [0x52, 0x62, 0x00, 0x66];
    var w := Window(0, 44100);
    hide WalkFrom, StepAt;
    WalkFromUnfold(AsWritten, data, 0, 0, w);
    WalkFromUnfold(AsWritten, data, 1, 0, w);
    WalkFromUnfold(AsWritten, data, 2, 735, w);
    WalkFromUnfold(AsWritten, data, 3, 735, w);
    AsWrittenSteps(data, w);
    assert V0915VgmParser.SongAt(data, 0, cmds);
    WalkSong(data, 0, cmds, 0, w);
  }

  /** A command whose operand count the switch gets right. */
  predicate CountedRight(c: V0903VgmCommand.Cmd)
  {
    !c.SnWrite? && !(c.OpnWrite? && c.op <= 0x53)
  }

  /** The two tables take the same step at an opcode whose operand counts agree. */
  lemma SameStep(data: seq<byte>, at: nat, total: nat, w: Window)
    requires at < |data| && Operands(AsWritten, data[at]) == Operands(Corrected, data[at])
    ensures StepAt(AsWritten, data, at, total, w) == StepAt(Corrected, data, at, total, w)
  {
  }

  /**
   * On a song body of the writes the switch counts right (the YM2151, the
   * YM2203, the YM2608 and the AY8910 writes) and of waits, the as-written
   * walk is the corrected one.
   */
  lemma {:induction false} AsWrittenRightOnCountedSongs(data: seq<byte>, at: nat, cmds: seq<V0903VgmCommand.Cmd>, total: nat, w: Window)
    requires forall i :: 0 <= i < |cmds| ==> V0915VgmParser.Plain(cmds[i]) && CountedRight(cmds[i])
    requires V0915VgmParser.SongAt(data, at, cmds)
    ensures WalkFrom(AsWritten, data, at, total, w) == WalkFrom(Corrected, data, at, total, w)
    decreases |cmds|
  {
    hide WalkFrom, StepAt;
    WalkFromUnfold(AsWritten, data, at, total, w);
    WalkFromUnfold(Corrected, data, at, total, w);
    if cmds == [] {
      assert data[at] == 0x66;
      SameStep(data, at, total, w);
      if total <= w.end {
        EndStep(data, at, total, w);
      }
    } else {
      var c := cmds[0];
      V0915VgmParser.SongSplit(data, at, cmds);
      var e := V0903VgmCommand.Encode(c);
      assert data[at] == e[0] && CountedRight(c);
      SameStep(data, at, total, w);
      if total <= w.end {
        CommandStep(c, data, at, total, w);
        var s := StepAt(Corrected, data, at, total, w);
        AsWrittenRightOnCountedSongs(data, at + |e|, cmds[1..], s.total, w);
      }
    }
  }

  /** The four passes of the as-written walk over the bytes 0x52 0x62 0x00 0x66. */
  lemma AsWrittenSteps(data: seq<byte>, w: Window)
    requires data == [0x52, 0x62, 0x00, 0x66] && w == Window(0, 44100)
    ensures StepAt(AsWritten, data, 0, 0, w) == Step([], None, 1, 0)
    ensures StepAt(AsWritten, data, 1, 0, w) == Step([Line(0, 0x62)], None, 2, 735)
    ensures StepAt(AsWritten, data, 2, 735, w) == Step([], None, 3, 735)
    ensures StepAt(AsWritten, data, 3, 735, w).done == Some(EndCommand) && StepAt(AsWritten, data, 3, 735, w).total == 735
  {
  }

  // ------------------------------------------------------------ the program

  /**
   * `n` successive `fgetc` calls: the bytes left in the file, then 0xFF for
   * each call at the end, which leaves the stream where it is.
   */
  method GetBytes(fp: Stream, n: nat) returns (a: seq<byte>)
    modifies fp
    ensures a == Getc(fp.data, old(fp.pos), n)
    ensures fp.pos == After(fp.data, old(fp.pos), n)
  {
    ghost var p := fp.pos;
    var got := fp.Read(n);
    a := got + Getc(fp.data, |fp.data|, n - |got|);
    assert forall k :: 0 <= k < n ==> a[k] == ByteAt(fp.data, p + k);
  }

  /**
   * One pass of the `while` loop: `eof` when `fgetc` finds no opcode,
   * otherwise the step `StepAt` describes with the operand counts of `t`
   * (`AsWritten` is the source's switch), with the stream at its next
   * position when the walk goes on.
   */
  method Pass(t: Table, fp: Stream, total: nat, w: Window) returns (eof: bool, s: Step)
    modifies fp
    ensures eof <==> old(fp.pos) >= |fp.data|
    ensures !eof ==> s == StepAt(t, fp.data, old(fp.pos), total, w) && (s.done.None? ==> fp.pos == s.next)
  {
    var c := fp.ReadByte();
    if c.None? {
      return true, Step([], None, fp.pos, total);
    }
    var op := c.value;
    var shown := w.start <= total <= w.end;
    if total > w.end {
      return false, Step([], Some(EndTime), fp.pos, total);
    }
    if op == 0x66 {
      return false, Step(if shown || total < w.start then [Line(total, op)] else [], Some(EndCommand), fp.pos, total);
    }
    if op == 0x67 {
      var block := GetBytes(fp, 6);
      var size := Le32(block[2], block[3], block[4], block[5]);
      fp.Seek(fp.pos + size);
      return false, Step(if shown then [Line(total, op)] else [], None, fp.pos, total);
    }
    var a := GetBytes(fp, Operands(t, op));
    var wait: nat := 0;
    if op == 0x61 {
      wait := Le16(a[0], a[1]);
    } else if op == 0x62 {
      wait := 735;
    } else if op == 0x63 {
      wait := 882;
    } else if 0x70 <= op <= 0x7F {
      wait := op % 0x10 + 1;
    }
    return false, Step(if shown && Printed(op) then [Line(total, op)] else [], None, fp.pos, total + wait);
  }

  lemma LinesAssoc(a: seq<Line>, b: seq<Line>, c: seq<Line>)
    ensures a + (b + c) == (a + b) + c
  {
  }

  /** The `while` loop from the data start: the walk `WalkFrom` describes with the operand counts of `t`. */
  method Walk(t: Table, fp: Stream, w: Window) returns (r: Walked)
    modifies fp
    ensures r == WalkFrom(t, fp.data, old(fp.pos), 0, w)
  {
    hide WalkFrom;
    ghost var goal := WalkFrom(t, fp.data, fp.pos, 0, w);
    var total: nat := 0;
    var lines: seq<Line> := [];
    while true
      invariant var rest := WalkFrom(t, fp.data, fp.pos, total, w);
        goal == Walked(lines + rest.lines, rest.total, rest.stop)
      decreases |fp.data| - fp.pos
    {
      ghost var lines0 := lines;
      WalkFromUnfold(t, fp.data, fp.pos, total, w);
      var eof, s := Pass(t, fp, total, w);
      if eof {
        return Walked(lines, total, EndOfFile);
      }
      lines := lines + s.line;
      if s.done.Some? {
        return Walked(lines, s.total, s.done.value);
      }
      LinesAssoc(lines0, s.line, WalkFrom(t, fp.data, s.next, s.total, w).lines);
      total := s.total;
    }
  }

  /**
   * `parse_vgm_commands`: `None` when the 0x40 header bytes cannot be read,
   * otherwise the walk from the data start with the operand counts of `t`;
   * `AsWritten` is the program as it stands.
   */
  method ParseCommands(t: Table, fp: Stream, w: Window) returns (r: Option<Walked>)
    modifies fp
    ensures |fp.data| < 0x40 ==> r == None
    ensures |fp.data| >= 0x40 ==> r == Some(WalkFrom(t, fp.data, DataStart(fp.data[..0x40]), 0, w))
  {
    fp.Seek(0);
    var hdr := fp.Read(0x40);
    if |hdr| != 0x40 {
      return None;
    }
    fp.Seek(DataStart(hdr));
    var walked := Walk(t, fp, w);
    return Some(walked);
  }
}
