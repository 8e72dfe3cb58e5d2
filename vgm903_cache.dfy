// The OPM cache builder of v0.903/console_player/vgm.c:
// `vgm_convert_and_cache_from_mem`, which re-emits a song's command stream
// with the convertible chips handed to a transcoder, and the header `vgm_play`
// writes over the placeholder once the stream is complete.

module V0903VgmCache {
  import opened Bytes
  import opened ChipType
  import opened V0903VgmHeader

  /** The conversion state the builder reads: the switches, the source chip and the source header's offsets. */
  datatype ConvConfig = ConvConfig(
    opnToOpm: bool,        // `g_opn_to_opm_conversion_enabled`
    ayToOpm: bool,         // `g_ay_to_opm_conversion_enabled`
    snToAy: bool,          // `g_sn_to_ay_conversion_enabled`
    active: bool,          // `g_is_conversion_active`
    chip: Chip,            // the source's primary chip
    dataOffset: u32,       // `original_header->vgm_data_offset`
    loopOffset: u32)       // `g_original_loop_offset`

  /**
   * What the builder emits, in order. `Raw` bytes go to the cache file as
   * they are; a transcoder call stands for the OPM writes the transcoder
   * makes through `vgm_cache_opm_writer`; `EnvelopeTicks(n)` is `n` calls of
   * `ay_to_opm_update_envelope`; `LoopMark` is the point where
   * `g_converted_loop_offset` takes the cache file's position.
   */
  datatype Piece =
    | Raw(bytes: seq<byte>)
    | OpnCall(addr: byte, data: byte, port: nat)
    | AyCall(addr: byte, data: byte)
    | SnCall(data: byte)
    | EnvelopeTicks(n: nat)
    | LoopMark

  /** One command's effect: whether the walk ends (a command lacks its bytes), where it resumes, and what it emits. */
  datatype Step = Step(stop: bool, next: nat, out: seq<Piece>)

  /** Commands copied with their two operand bytes. */
  predicate IsPass2(op: byte)
  {
    op == 0x51 || 0x58 <= op <= 0x5F || 0xB0 <= op <= 0xB8 || 0xC3 <= op <= 0xC8 ||
    0xD0 <= op <= 0xD6 || op == 0xE1
  }

  /** Commands copied with their one operand byte. */
  predicate IsPass1(op: byte)
  {
    op == 0x4F || op == 0x90 || op == 0x91 || op == 0x95
  }

  /** Whether an opcode writes a chip the builder can hand to a transcoder. */
  predicate IsConvertible(op: byte)
  {
    op == 0x50 || op == 0xA0 || op == 0x52 || op == 0x53 || op == 0x55 || op == 0x56 || op == 0x57
  }

  /** The bytes that must follow an opcode before the builder acts on it. */
  function Need(op: byte): (n: nat)
    ensures n <= 6
  {
    if (IsConvertible(op) && op != 0x50) || op == 0x54 || IsPass2(op) || op == 0x61 then 2
    else if op == 0x50 || IsPass1(op) || 0x80 <= op <= 0x8F then 1
    else if op == 0x67 then 6
    else if op == 0xE0 then 4
    else 0
  }

  /** A convertible write: the transcoder call when its conversion is on for this chip, the command itself otherwise. */
  function ConvertWrite(cc: ConvConfig, op: byte, d1: byte, d2: byte): (p: Piece)
    requires IsConvertible(op)
  {
    if op == 0x50 then (if cc.snToAy && cc.chip == SN76489 then SnCall(d1) else Raw([op, d1]))
    else if op == 0xA0 then (if cc.ayToOpm && cc.chip == AY8910 then AyCall(d1, d2) else Raw([op, d1, d2]))
    else if op == 0x52 || op == 0x53 then
      (if cc.opnToOpm && cc.chip == YM2612 then OpnCall(d1, d2, if op == 0x52 then 0 else 1) else Raw([op, d1, d2]))
    else if op == 0x55 then
      (if cc.opnToOpm && cc.chip == YM2203 then OpnCall(d1, d2, 0) else Raw([op, d1, d2]))
    else
      (if cc.opnToOpm && cc.chip == YM2608 then OpnCall(d1, d2, if op == 0x56 then 0 else 1) else Raw([op, d1, d2]))
  }

  /** The AY envelope steps run for a wait of `n` samples, when AY conversion is on. */
  function Ticks(cc: ConvConfig, n: nat): (t: seq<Piece>)
  {
    if cc.ayToOpm then [EnvelopeTicks(n)] else []
  }

  /** The command at `pos` as the builder's `switch` handles it. */
  function ConvertStep(cc: ConvConfig, data: seq<byte>, pos: nat): (s: Step)
    requires pos < |data|
    ensures !s.stop ==> pos < s.next <= |data|
  {
    var op := data[pos];
    var p := pos + 1;
    if p + Need(op) > |data| then Step(true, p, [])
    else if IsConvertible(op) then
      Step(false, p + Need(op), [ConvertWrite(cc, op, data[p], if op == 0x50 then 0 else data[p + 1])])
    else if op == 0x54 then
      Step(false, p + 2, if cc.active then [] else [Raw([op, data[p], data[p + 1]])])
    else if IsPass2(op) then Step(false, p + 2, [Raw([op, data[p], data[p + 1]])])
    else if IsPass1(op) then Step(false, p + 1, [Raw([op, data[p]])])
    else if op == 0x61 then
      var wait := Le16At(data, p);
      Step(false, p + 2, Ticks(cc, wait) + [Raw([0x61, wait % 0x100, wait / 0x100])])
    else if op == 0x62 || op == 0x63 || op == 0x66 then Step(false, p, [Raw([op])])
    else if op == 0x67 then
      if data[p] == 0x66 then
        var size := Le32At(data, p + 2);
        if p + 6 + size > |data| then Step(true, p, []) else Step(false, p + 6 + size, [])
      else Step(false, p + 6, [])
    else if op == 0xE0 then Step(false, p + 4, [])
    else if 0x70 <= op <= 0x7F then Step(false, p, Ticks(cc, op % 0x10 + 1) + [Raw([op])])
    else if 0x80 <= op <= 0x8F then
      // `0x70 | (n - 1)`: the wait of a PCM write kept as a short wait
      Step(false, p + 1, if op % 0x10 > 0 then [Raw([0x70 + (op % 0x10 - 1)])] else [])
    else Step(false, p, [])
  }

  /** Whether the loop point is recorded before the command at `pos`. */
  predicate MarkHere(cc: ConvConfig, pos: nat, marked: bool)
  {
    !marked && cc.loopOffset > 0 && cc.dataOffset + pos >= cc.loopOffset
  }

  /**
   * The pieces the builder emits from `pos` to the end, `marked` telling
   * whether the loop point is already recorded. The walk ends at the end of
   * the data or at a command lacking its bytes; either way the final 0x66
   * follows.
   */
  function ConvertFrom(cc: ConvConfig, data: seq<byte>, pos: nat, marked: bool): (out: seq<Piece>)
    decreases |data| - pos
  {
    if pos >= |data| then [Raw([0x66])]
    else
      var mark := MarkHere(cc, pos, marked);
      var m := if mark then [LoopMark] else [];
      var s := ConvertStep(cc, data, pos);
      if s.stop then m + [Raw([0x66])]
      else m + s.out + ConvertFrom(cc, data, s.next, marked || mark)
  }

  // ---------------------------------------------------------------- methods

  /** The body of the builder's `switch` for the command at `pos`. */
  method ConvertCommand(cc: ConvConfig, data: seq<byte>, pos: nat) returns (stop: bool, next: nat, out: seq<Piece>)
    requires pos < |data|
    ensures Step(stop, next, out) == ConvertStep(cc, data, pos)
  {
    var op := data[pos];
    next := pos + 1;
    stop := false;
    out := [];
    if next + Need(op) > |data| {
      stop := true;
      return;
    }
    if IsConvertible(op) {
      var d1 := data[next];
      var d2 := if op == 0x50 then 0 else data[next + 1];
      next := next + Need(op);
      out := [ConvertWrite(cc, op, d1, d2)];
    } else if op == 0x54 || IsPass2(op) {
      var d1 := data[next];
      var d2 := data[next + 1];
      next := next + 2;
      if op != 0x54 || !cc.active {
        out := [Raw([op, d1, d2])];
      }
    } else if IsPass1(op) {
      out := [Raw([op, data[next]])];
      next := next + 1;
    } else if op == 0x61 {
      var wait := Le16(data[next], data[next + 1]);
      next := next + 2;
      if cc.ayToOpm {
        out := [EnvelopeTicks(wait)];
      }
      out := out + [Raw([op, wait % 0x100, wait / 0x100])];
    } else if op == 0x62 || op == 0x63 || op == 0x66 {
      out := [Raw([op])];
    } else if op == 0x67 {
      if data[next] == 0x66 {
        var size := Le32(data[next + 2], data[next + 3], data[next + 4], data[next + 5]);
        if next + 6 + size > |data| {
          stop := true;
          return;
        }
        next := next + 6 + size;
      } else {
        next := next + 6;
      }
    } else if op == 0xE0 {
      next := next + 4;
    } else if 0x70 <= op <= 0x7F {
      if cc.ayToOpm {
        out := [EnvelopeTicks(op % 0x10 + 1)];
      }
      out := out + [Raw([op])];
    } else if 0x80 <= op <= 0x8F {
      next := next + 1;
      var n := op % 0x10;
      if n > 0 {
        out := [Raw([0x70 + (n - 1)])];
      }
    }
  }

  /** `vgm_convert_and_cache_from_mem`: the whole stream, as `ConvertFrom` describes it. */
  method Convert(cc: ConvConfig, data: seq<byte>) returns (out: seq<Piece>)
    ensures out == ConvertFrom(cc, data, 0, false)
  {
    var pos := 0;
    var marked := false;
    out := [];
    while pos < |data|
      invariant pos <= |data|
      invariant out + ConvertFrom(cc, data, pos, marked) == ConvertFrom(cc, data, 0, false)
      decreases |data| - pos
    {
      ghost var before := out;
      ghost var wasMarked := marked;
      ghost var m: seq<Piece> := if MarkHere(cc, pos, marked) then [LoopMark] else [];
      if !marked && cc.loopOffset > 0 && cc.dataOffset + pos >= cc.loopOffset {
        out := out + [LoopMark];
        marked := true;
      }
      assert out == before + m;
      var stop, next, stepOut := ConvertCommand(cc, data, pos);
      ConvertFromUnfold(cc, data, pos, wasMarked);
      if stop {
        out := out + [Raw([0x66])];
        return;
      }
      ghost var rest := ConvertFrom(cc, data, next, marked);
      assert ConvertFrom(cc, data, pos, wasMarked) == m + (stepOut + rest);
      AppendAssoc(before, m, stepOut, rest);
      out := out + stepOut;
      pos := next;
    }
    out := out + [Raw([0x66])];
  }

  lemma AppendAssoc(a: seq<Piece>, b: seq<Piece>, c: seq<Piece>, d: seq<Piece>)
    ensures a + b + c + d == a + (b + (c + d))
  {
  }

  /** `ConvertFrom` at a position inside the data, one command unfolded. */
  lemma ConvertFromUnfold(cc: ConvConfig, data: seq<byte>, pos: nat, marked: bool)
    requires pos < |data|
    ensures var mark := MarkHere(cc, pos, marked);
      var m := if mark then [LoopMark] else [];
      var s := ConvertStep(cc, data, pos);
      ConvertFrom(cc, data, pos, marked) ==
        m + (if s.stop then [Raw([0x66])] else s.out + ConvertFrom(cc, data, s.next, marked || mark))
  {
    var mark := MarkHere(cc, pos, marked);
    var m: seq<Piece> := if mark then [LoopMark] else [];
    var s := ConvertStep(cc, data, pos);
    if !s.stop {
      assert m + s.out + ConvertFrom(cc, data, s.next, marked || mark) ==
        m + (s.out + ConvertFrom(cc, data, s.next, marked || mark));
    }
  }

  // -------------------------------------------------------------- properties

  /** Whether a piece list ends with the end-of-data command. */
  predicate EndsWithEnd(out: seq<Piece>)
  {
    |out| > 0 && out[|out| - 1] == Raw([0x66])
  }

  lemma EndsWithEndAppend(a: seq<Piece>, b: seq<Piece>)
    requires EndsWithEnd(b)
    ensures EndsWithEnd(a + b)
  {
    assert (a + b)[|a + b| - 1] == b[|b| - 1];
  }

  /** The converted stream always ends with the end-of-data command. */
  lemma {:induction false} ConvertEndsWithEnd(cc: ConvConfig, data: seq<byte>, pos: nat, marked: bool)
    ensures EndsWithEnd(ConvertFrom(cc, data, pos, marked))
    decreases |data| - pos
  {
    var end: seq<Piece> := [Raw([0x66])];
    assert EndsWithEnd(end);
    if pos < |data| {
      var mark := MarkHere(cc, pos, marked);
      var m: seq<Piece> := if mark then [LoopMark] else [];
      var s := ConvertStep(cc, data, pos);
      ConvertFromUnfold(cc, data, pos, marked);
      hide ConvertFrom, ConvertStep, EndsWithEnd;
      if s.stop {
        EndsWithEndAppend(m, end);
      } else {
        var rest := ConvertFrom(cc, data, s.next, marked || mark);
        ConvertEndsWithEnd(cc, data, s.next, marked || mark);
        EndsWithEndAppend(s.out, rest);
        EndsWithEndAppend(m, s.out + rest);
      }
    }
  }

  function CountMarks(out: seq<Piece>): (n: nat)
    ensures n <= |out|
  {
    if out == [] then 0 else (if out[0] == LoopMark then 1 else 0) + CountMarks(out[1..])
  }

  lemma {:induction false} CountMarksAppend(a: seq<Piece>, b: seq<Piece>)
    ensures CountMarks(a + b) == CountMarks(a) + CountMarks(b)
  {
    if a == [] {
      assert a + b == b;
    } else {
      assert (a + b)[1..] == a[1..] + b;
      CountMarksAppend(a[1..], b);
    }
  }

  /** A single command never emits the loop mark. */
  lemma StepHasNoMark(cc: ConvConfig, data: seq<byte>, pos: nat)
    requires pos < |data|
    ensures CountMarks(ConvertStep(cc, data, pos).out) == 0
  {
    var out := ConvertStep(cc, data, pos).out;
    if out != [] {
      assert out[1..] == [] || (|out| == 2 && out[1..] == [out[1]]);
    }
  }

  /**
   * The loop point is recorded at most once, and never when the source has
   * no loop or it is already recorded.
   */
  lemma {:induction false} LoopMarkedAtMostOnce(cc: ConvConfig, data: seq<byte>, pos: nat, marked: bool)
    ensures CountMarks(ConvertFrom(cc, data, pos, marked)) <= (if marked || cc.loopOffset == 0 then 0 else 1)
    decreases |data| - pos
  {
    var end: seq<Piece> := [Raw([0x66])];
    assert CountMarks(end) == 0 by { assert end[1..] == []; }
    if pos < |data| {
      var mark := MarkHere(cc, pos, marked);
      var m: seq<Piece> := if mark then [LoopMark] else [];
      assert CountMarks(m) == (if mark then 1 else 0) by {
        if mark { assert m[1..] == []; }
      }
      var s := ConvertStep(cc, data, pos);
      if s.stop {
        CountMarksAppend(m, end);
      } else {
        var rest := ConvertFrom(cc, data, s.next, marked || mark);
        LoopMarkedAtMostOnce(cc, data, s.next, marked || mark);
        StepHasNoMark(cc, data, pos);
        CountMarksAppend(m, s.out);
        CountMarksAppend(m + s.out, rest);
      }
    }
  }

  /** Whether a piece is a YM2151 register write copied from the source. */
  predicate IsOpmWrite(p: Piece)
  {
    p.Raw? && |p.bytes| > 0 && p.bytes[0] == 0x54
  }

  /**
   * While a conversion is active, no YM2151 write of the source reaches the
   * cache: the only OPM writes in it are the transcoder's.
   */
  lemma {:induction false} SourceOpmWritesDropped(cc: ConvConfig, data: seq<byte>, pos: nat, marked: bool)
    requires cc.active
    ensures forall i :: 0 <= i < |ConvertFrom(cc, data, pos, marked)| ==> !IsOpmWrite(ConvertFrom(cc, data, pos, marked)[i])
    decreases |data| - pos
  {
    if pos < |data| {
      var mark := MarkHere(cc, pos, marked);
      var s := ConvertStep(cc, data, pos);
      if !s.stop {
        SourceOpmWritesDropped(cc, data, s.next, marked || mark);
      }
    }
  }

  /**
   * Every command the builder copies reaches the cache byte for byte: the
   * passthrough sets, 0x54 when no conversion is active, and a convertible
   * write whose conversion is off.
   */
  lemma PassthroughVerbatim(cc: ConvConfig, data: seq<byte>, pos: nat)
    requires pos < |data| && pos + 1 + Need(data[pos]) <= |data|
    requires var op := data[pos];
      IsPass1(op) || IsPass2(op) || (op == 0x54 && !cc.active) || op == 0x62 || op == 0x63 || op == 0x66 ||
      (IsConvertible(op) && ConvertWrite(cc, op, data[pos + 1], if op == 0x50 then 0 else data[pos + 2]).Raw?)
    ensures var n := 1 + Need(data[pos]);
      ConvertStep(cc, data, pos) == Step(false, pos + n, [Raw(data[pos..pos + n])])
  {
    var n := 1 + Need(data[pos]);
    if n == 1 {
      assert data[pos..pos + n] == [data[pos]];
    } else if n == 2 {
      assert data[pos..pos + n] == [data[pos], data[pos + 1]];
    } else {
      assert data[pos..pos + n] == [data[pos], data[pos + 1], data[pos + 2]];
    }
  }

  // ----------------------------------------------------------------- timing

  /** The samples a command of the cache stream waits, as the VGM format counts them. */
  function PieceSamples(p: Piece): nat
  {
    if !p.Raw? || |p.bytes| == 0 then 0
    else
      var op := p.bytes[0];
      if op == 0x61 && |p.bytes| == 3 then Le16(p.bytes[1], p.bytes[2])
      else if op == 0x62 && |p.bytes| == 1 then 735
      else if op == 0x63 && |p.bytes| == 1 then 882
      else if 0x70 <= op <= 0x7F && |p.bytes| == 1 then op % 0x10 + 1
      else 0
  }

  function OutSamples(out: seq<Piece>): nat
  {
    if out == [] then 0 else PieceSamples(out[0]) + OutSamples(out[1..])
  }

  lemma {:induction false} OutSamplesAppend(a: seq<Piece>, b: seq<Piece>)
    ensures OutSamples(a + b) == OutSamples(a) + OutSamples(b)
  {
    if a == [] {
      assert a + b == b;
    } else {
      assert (a + b)[1..] == a[1..] + b;
      OutSamplesAppend(a[1..], b);
    }
  }

  /**
   * The samples a source command waits: its 16-bit count, a frame, a short
   * wait, or the wait of a PCM write (0x8n waits n).
   */
  function CommandSamples(data: seq<byte>, pos: nat): nat
    requires pos < |data|
  {
    var op := data[pos];
    if op == 0x61 then (if pos + 3 <= |data| then Le16At(data, pos + 1) else 0)
    else if op == 0x62 then 735
    else if op == 0x63 then 882
    else if 0x70 <= op <= 0x7F then op % 0x10 + 1
    else if 0x80 <= op <= 0x8F then op % 0x10
    else 0
  }

  /** The samples of the source commands the builder walks over, from `pos`. */
  function SourceSamples(cc: ConvConfig, data: seq<byte>, pos: nat): nat
    decreases |data| - pos
  {
    if pos >= |data| then 0
    else
      var s := ConvertStep(cc, data, pos);
      if s.stop then 0 else CommandSamples(data, pos) + SourceSamples(cc, data, s.next)
  }

  /** One command's pieces wait as long as the command did. */
  lemma StepKeepsSamples(cc: ConvConfig, data: seq<byte>, pos: nat)
    requires pos < |data| && !ConvertStep(cc, data, pos).stop
    ensures OutSamples(ConvertStep(cc, data, pos).out) == CommandSamples(data, pos)
  {
    var s := ConvertStep(cc, data, pos);
    var op := data[pos];
    if op == 0x61 {
      var w := Le16At(data, pos + 1);
      TicksThen(cc, w, Raw([0x61, w % 0x100, w / 0x100]));
      assert Le16(w % 0x100, w / 0x100) == w;
    } else if 0x70 <= op <= 0x7F {
      TicksThen(cc, op % 0x10 + 1, Raw([op]));
    } else if |s.out| == 1 {
      assert s.out[1..] == [];
    }
  }

  /** The envelope steps before a wait add no samples of their own. */
  lemma TicksThen(cc: ConvConfig, n: nat, p: Piece)
    ensures OutSamples(Ticks(cc, n) + [p]) == PieceSamples(p)
  {
    var t := Ticks(cc, n) + [p];
    assert OutSamples([p]) == PieceSamples(p) by { assert [p][1..] == []; }
    if cc.ayToOpm {
      assert t[1..] == [p];
    }
  }

  /**
   * The cache plays for as long as the source: every wait is kept, and a
   * PCM write's wait becomes a short wait of the same length.
   */
  lemma {:induction false} ConvertKeepsSamples(cc: ConvConfig, data: seq<byte>, pos: nat, marked: bool)
    ensures OutSamples(ConvertFrom(cc, data, pos, marked)) == SourceSamples(cc, data, pos)
    decreases |data| - pos
  {
    var end: seq<Piece> := [Raw([0x66])];
    assert OutSamples(end) == 0 by { assert end[1..] == []; }
    if pos < |data| {
      var mark := MarkHere(cc, pos, marked);
      var m: seq<Piece> := if mark then [LoopMark] else [];
      assert OutSamples(m) == 0 by {
        if mark { assert m[1..] == []; }
      }
      var s := ConvertStep(cc, data, pos);
      if s.stop {
        OutSamplesAppend(m, end);
      } else {
        var rest := ConvertFrom(cc, data, s.next, marked || mark);
        ConvertKeepsSamples(cc, data, s.next, marked || mark);
        StepKeepsSamples(cc, data, pos);
        OutSamplesAppend(m, s.out);
        OutSamplesAppend(m + s.out, rest);
      }
    }
  }

  // ------------------------------------------------------- the source's data

  /**
   * The size `vgm_play` hands the builder, as written: the header's claimed
   * end (`eof_offset + 4`) less the data offset, in 32-bit arithmetic and
   * never checked against the file's length.
   */
  function DataSizeAsWritten(h: Header): (n: u32)
    ensures h.dataOffset <= (h.eofOffset + 4) % TWO32 ==> n == (h.eofOffset + 4) % TWO32 - h.dataOffset
  {
    ((h.eofOffset + 4) % TWO32 - h.dataOffset) % TWO32
  }

  /**
   * A file cut short after its header: the header claims 0x1000 bytes, so
   * the builder is handed 0xFC0 bytes from offset 0x40 of a 0x80-byte buffer
   * and reads past its end.
   */
  lemma DataSizeOverrunsFile(file: seq<byte>)
    requires |file| == 0x80 && file[..4] == VGM_MAGIC
    requires Le32At(file, 0x04) == 0xFFC && Le32At(file, 0x08) == 0x100
    ensures ParsedHeader(file).Some?
    ensures var h := ParsedHeader(file).value;
      h.dataOffset == 0x40 && DataSizeAsWritten(h) == 0xFC0 && h.dataOffset + DataSizeAsWritten(h) > |file|
  {
  }

  /**
   * The song's command bytes as evidently intended: from the data offset to
   * the header's claimed end, cut at the end of the file.
   */
  function SongData(file: seq<byte>, h: Header): (d: seq<byte>)
    ensures h.dataOffset + |d| <= |file| || d == []
    ensures d != [] ==> d == file[h.dataOffset..h.dataOffset + |d|]
  {
    var end := Min(h.eofOffset + 4, |file|);
    if h.dataOffset < end then file[h.dataOffset..end] else []
  }

  /** On a file as long as its header claims, the intended data is exactly what the code as written hands over. */
  lemma SongDataAgreesOnWholeFiles(file: seq<byte>, h: Header)
    requires h.dataOffset <= h.eofOffset + 4 <= |file| && h.eofOffset + 4 < TWO32
    ensures |SongData(file, h)| == DataSizeAsWritten(h)
    ensures SongData(file, h) == file[h.dataOffset..h.dataOffset + DataSizeAsWritten(h)]
  {
  }

  /**
   * Where `vgm_play` reads the GD3 block's length field, as written: eight
   * bytes into the block the header's 0x14 field points at, unchecked.
   */
  function Gd3LengthFieldAsWritten(file: seq<byte>): (at: Option<nat>)
    requires |file| >= 0x18
    ensures at.Some? <==> Le32At(file, 0x14) != 0
  {
    var ofs := Le32At(file, 0x14);
    if ofs == 0 then None else Some((0x14 + ofs) % TWO32 + 8)
  }

  /** A 0x80-byte file whose GD3 field points 0x1000 bytes on makes the copy read its length from past the end. */
  lemma Gd3LengthOutsideFile(file: seq<byte>)
    requires |file| == 0x80 && Le32At(file, 0x14) == 0x1000
    ensures Gd3LengthFieldAsWritten(file) == Some(0x101C) && 0x101C + 4 > |file|
  {
  }

  /**
   * The GD3 block copied to the cache, as evidently intended: the 12-byte
   * block header and the strings, when all of it lies inside the file;
   * nothing otherwise.
   */
  function Gd3Block(file: seq<byte>): (g: seq<byte>)
    requires |file| >= 0x18
    ensures g != [] ==> Gd3LengthFieldAsWritten(file).Some?
    ensures g != [] ==> var at := Gd3LengthFieldAsWritten(file).value;
      at + 4 <= |file| && |g| == 12 + Le32At(file, at) && at - 8 + |g| <= |file| && g == file[at - 8..at - 8 + |g|]
  {
    var ofs := Le32At(file, 0x14);
    var start := (0x14 + ofs) % TWO32;
    if ofs == 0 || start + 12 > |file| then []
    else
      var size := 12 + Le32At(file, start + 8);
      if start + size > |file| then [] else file[start..start + size]
  }

  // ------------------------------------------------------------ cache header

  /** Where the converted stream starts in the cache: just after the 0x100-byte placeholder. */
  const DATA_START: nat := 0x100

  /** "Vgm " read as a little-endian word. */
  const MAGIC_WORD: u32 := 0x206D6756

  /** A run of little-endian 32-bit words as bytes. */
  function WordsToBytes(w: seq<u32>): (b: seq<byte>)
    ensures |b| == 4 * |w|
  {
    seq(4 * |w|, i requires 0 <= i < 4 * |w| => Le32Bytes(w[i / 4])[i % 4])
  }

  lemma ByteAt(w: seq<u32>, k: nat, j: nat)
    requires k < |w| && j < 4
    ensures WordsToBytes(w)[4 * k + j] == Le32Bytes(w[k])[j]
  {
    assert (4 * k + j) / 4 == k && (4 * k + j) % 4 == j;
  }

  lemma WordAt(w: seq<u32>, k: nat)
    requires k < |w|
    ensures Le32At(WordsToBytes(w), 4 * k) == w[k]
  {
    ByteAt(w, k, 0);
    ByteAt(w, k, 1);
    ByteAt(w, k, 2);
    ByteAt(w, k, 3);
    Le32BytesRoundTrip(w[k]);
  }

  /**
   * The word at byte offset `4 * k` of the finished cache header. The header
   * buffer is cleared and then written with `write_le32`, so it is a run of
   * little-endian words, all zero but these: the magic, the size after the
   * eof field, the version, the GD3 and loop offsets relative to their
   * fields (both loop fields zero when the song does not loop or plays once),
   * the total samples, the rate, the YM2151's clock and, from version 1.50,
   * the data offset relative to 0x34. Positions in the cache are `long`s
   * written through a `uint32_t` and wrap.
   */
  function CacheWord(src: Header, finalSize: nat, gd3Start: nat, convertedLoop: nat, loopCount: int, opmClock: u32, k: nat): (w: u32)
  {
    var looping := convertedLoop > 0 && loopCount != 1;
    if k == 0 then MAGIC_WORD
    else if k == 0x04 / 4 then (finalSize - 4) % TWO32
    else if k == 0x08 / 4 then src.version
    else if k == 0x14 / 4 then (if gd3Start > 0 then (gd3Start - 0x14) % TWO32 else 0)
    else if k == 0x18 / 4 then src.totalSamples
    else if k == 0x1C / 4 then (if looping then (convertedLoop - 0x1C) % TWO32 else 0)
    else if k == 0x20 / 4 then (if looping then src.loopSamples else 0)
    else if k == 0x24 / 4 then src.rate
    else if k == 0x30 / 4 then opmClock
    else if k == 0x34 / 4 then (if src.version >= 0x150 then DATA_START - 0x34 else 0)
    else 0
  }

  function CacheWords(src: Header, finalSize: nat, gd3Start: nat, convertedLoop: nat, loopCount: int, opmClock: u32): (w: seq<u32>)
    ensures |w| == 0x40
  {
    seq(0x40, k requires 0 <= k < 0x40 => CacheWord(src, finalSize, gd3Start, convertedLoop, loopCount, opmClock, k))
  }

  /** The 0x100-byte header `vgm_play` writes over the placeholder. */
  function CacheHeader(src: Header, finalSize: nat, gd3Start: nat, convertedLoop: nat, loopCount: int, opmClock: u32): (b: seq<byte>)
    ensures |b| == 0x100
  {
    WordsToBytes(CacheWords(src, finalSize, gd3Start, convertedLoop, loopCount, opmClock))
  }

  /**
   * The header a player reads back from a cache: the source's version,
   * samples and rate, the converted loop point (none when the song does not
   * loop or plays once), the data just after the placeholder from version
   * 1.50 (0x40 before), and the YM2151 as the only chip with a clock, each
   * field under the version gate `vgm_parse_header` applies.
   */
  function CachedSongHeader(src: Header, finalSize: nat, convertedLoop: u32, loopCount: int, opmClock: u32): (h: Header)
  {
    var looping := convertedLoop > 0 && loopCount != 1;
    var v := src.version;
    Header(v, (finalSize - 4) % TWO32, src.totalSamples,
      if looping then convertedLoop else 0,
      if looping then src.loopSamples else 0,
      if v >= 0x150 then DATA_START else 0x40,
      0, 0,
      if v >= 0x101 then src.rate else 0,
      0, 0, 0,
      if v >= 0x110 then opmClock else 0,
      0, 0, 0)
  }

  /** Past the fields it writes (0x38 on), the cache header is zero. */
  lemma CacheHeaderTailZero(src: Header, finalSize: nat, gd3Start: nat, convertedLoop: nat, loopCount: int, opmClock: u32)
    ensures var b := CacheHeader(src, finalSize, gd3Start, convertedLoop, loopCount, opmClock);
      forall i :: 0x38 <= i < 0x100 ==> b[i] == 0
  {
    var w := CacheWords(src, finalSize, gd3Start, convertedLoop, loopCount, opmClock);
    forall i | 0x38 <= i < 0x100
      ensures WordsToBytes(w)[i] == 0
    {
      assert w[i / 4] == 0;
    }
  }

  /** Words holding the fields of `e` where the cache writer puts them, and zero in the other fields `e` reads. */
  predicate WordsFit(w: seq<u32>, e: Header)
    requires |w| == 0x40
  {
    w[1] == e.eofOffset && w[2] == e.version && w[3] == 0 && w[4] == 0 &&
    w[6] == e.totalSamples && RelOf(w[7], 0x1C) == e.loopOffset && w[8] == e.loopSamples &&
    (e.version >= 0x101 ==> w[9] == e.rate) && (e.version < 0x101 ==> e.rate == 0) &&
    w[10] == 0 && w[11] == 0 &&
    (e.version >= 0x110 ==> w[12] == e.ym2151Clock) && (e.version < 0x110 ==> e.ym2151Clock == 0) &&
    (e.version >= 0x150 ==> RelOf(w[13], 0x34) == e.dataOffset && e.dataOffset != 0) &&
    (e.version < 0x150 ==> e.dataOffset == 0x40) &&
    w[17] == 0 && w[18] == 0 && w[29] == 0 &&
    e.sn76489Clock == 0 && e.ym2413Clock == 0 && e.sn76489Feedback == 0 && e.sn76489ShiftWidth == 0 &&
    e.ym2612Clock == 0 && e.ym2203Clock == 0 && e.ym2608Clock == 0 && e.ay8910Clock == 0
  }

  /** The words of the cache header hold the fields of `CachedSongHeader`, each where the parser looks. */
  lemma CacheWordsValues(src: Header, finalSize: nat, gd3Start: nat, convertedLoop: nat, loopCount: int, opmClock: u32)
    requires convertedLoop == 0 || 0x100 <= convertedLoop < TWO32
    ensures var w := CacheWords(src, finalSize, gd3Start, convertedLoop, loopCount, opmClock);
      w[0] == MAGIC_WORD && w[2] == src.version &&
      WordsFit(w, CachedSongHeader(src, finalSize, convertedLoop, loopCount, opmClock))
  {
    if convertedLoop > 0 && loopCount != 1 {
      assert (convertedLoop - 0x1C) % TWO32 == convertedLoop - 0x1C;
    }
  }

  /** A header buffer whose words hold a header's fields where the cache writer puts them reads back as that header. */
  lemma FieldsFromWords(b: seq<byte>, e: Header, loopWord: u32, dataWord: u32)
    requires |b| == 0x100
    requires Le32At(b, 0x04) == e.eofOffset && Le32At(b, 0x08) == e.version && Le32At(b, 0x18) == e.totalSamples
    requires Le32At(b, 0x0C) == 0 && Le32At(b, 0x10) == 0 && Le32At(b, 0x2C) == 0
    requires Le32At(b, 0x1C) == loopWord && RelOf(loopWord, 0x1C) == e.loopOffset && Le32At(b, 0x20) == e.loopSamples
    requires e.version >= 0x101 ==> Le32At(b, 0x24) == e.rate
    requires e.version < 0x101 ==> e.rate == 0
    requires e.version >= 0x110 ==> Le32At(b, 0x30) == e.ym2151Clock
    requires e.version < 0x110 ==> e.ym2151Clock == 0
    requires Le32At(b, 0x34) == dataWord
    requires e.version >= 0x150 ==> RelOf(dataWord, 0x34) == e.dataOffset && e.dataOffset != 0
    requires e.version < 0x150 ==> e.dataOffset == 0x40
    requires b[0x28] == 0 && b[0x29] == 0 && b[0x2A] == 0
    requires Le32At(b, 0x44) == 0 && Le32At(b, 0x48) == 0 && Le32At(b, 0x74) == 0
    requires e.sn76489Clock == 0 && e.ym2413Clock == 0 && e.sn76489Feedback == 0 && e.sn76489ShiftWidth == 0
    requires e.ym2612Clock == 0 && e.ym2203Clock == 0 && e.ym2608Clock == 0 && e.ay8910Clock == 0
    ensures FieldsOf(b) == e
  {
    var h := FieldsOf(b);
    assert h.version == e.version && h.eofOffset == e.eofOffset && h.totalSamples == e.totalSamples;
    assert h.loopOffset == e.loopOffset by {
      assert ReadRelOfs(b, 0x1C) == RelOf(loopWord, 0x1C);
    }
    assert h.loopSamples == e.loopSamples;
    assert h.dataOffset == e.dataOffset by {
      if e.version >= 0x150 {
        assert ReadRelOfs(b, 0x34) == RelOf(dataWord, 0x34);
      }
    }
    assert h.sn76489Clock == 0 && h.ym2413Clock == 0 && h.rate == e.rate;
    assert h.sn76489Feedback == 0 by {
      assert Le16At(b, 0x28) == 0;
    }
    assert h.sn76489ShiftWidth == 0 && h.ym2612Clock == 0 && h.ym2151Clock == e.ym2151Clock;
    assert h.ym2203Clock == 0 && h.ym2608Clock == 0 && h.ay8910Clock == 0;
  }

  lemma BaseWordsAt(w: seq<u32>)
    requires |w| == 0x40
    ensures var b := WordsToBytes(w);
      Le32At(b, 0x04) == w[1] && Le32At(b, 0x08) == w[2] && Le32At(b, 0x0C) == w[3] &&
      Le32At(b, 0x10) == w[4] && Le32At(b, 0x18) == w[6] && Le32At(b, 0x1C) == w[7] &&
      Le32At(b, 0x20) == w[8] && Le32At(b, 0x24) == w[9]
  {
    WordAt(w, 1);
    WordAt(w, 2);
    WordAt(w, 3);
    WordAt(w, 4);
    WordAt(w, 6);
    WordAt(w, 7);
    WordAt(w, 8);
    WordAt(w, 9);
  }

  lemma LaterWordsAt(w: seq<u32>)
    requires |w| == 0x40 && w[10] == 0
    ensures var b := WordsToBytes(w);
      b[0x28] == 0 && b[0x29] == 0 && b[0x2A] == 0 &&
      Le32At(b, 0x2C) == w[11] && Le32At(b, 0x30) == w[12] && Le32At(b, 0x34) == w[13] &&
      Le32At(b, 0x44) == w[17] && Le32At(b, 0x48) == w[18] && Le32At(b, 0x74) == w[29]
  {
    hide WordsToBytes, Le32At;
    WordAt(w, 11);
    WordAt(w, 12);
    WordAt(w, 13);
    WordAt(w, 17);
    WordAt(w, 18);
    WordAt(w, 29);
    ByteAt(w, 10, 0);
    ByteAt(w, 10, 1);
    ByteAt(w, 10, 2);
  }

  /** Words that fit a header make a buffer that reads back as that header. */
  lemma FieldsOfWords(w: seq<u32>, e: Header)
    requires |w| == 0x40 && WordsFit(w, e)
    ensures FieldsOf(WordsToBytes(w)) == e
  {
    BaseWordsAt(w);
    LaterWordsAt(w);
    FieldsFromWords(WordsToBytes(w), e, w[7], w[13]);
  }

  /** The cache header's buffer, parsed, is `CachedSongHeader`. */
  lemma FieldsOfCacheHeader(src: Header, finalSize: nat, gd3Start: nat, convertedLoop: nat, loopCount: int, opmClock: u32)
    requires convertedLoop == 0 || 0x100 <= convertedLoop < TWO32
    ensures FieldsOf(CacheHeader(src, finalSize, gd3Start, convertedLoop, loopCount, opmClock)) ==
      CachedSongHeader(src, finalSize, convertedLoop, loopCount, opmClock)
  {
    CacheWordsValues(src, finalSize, gd3Start, convertedLoop, loopCount, opmClock);
    FieldsOfWords(CacheWords(src, finalSize, gd3Start, convertedLoop, loopCount, opmClock),
      CachedSongHeader(src, finalSize, convertedLoop, loopCount, opmClock));
  }

  /**
   * A cache file read back with `vgm_parse_header` gives `CachedSongHeader`,
   * and its GD3 field points where the block was copied.
   */
  lemma {:induction false} CacheHeaderParses(src: Header, finalSize: nat, gd3Start: nat, convertedLoop: nat, loopCount: int, opmClock: u32, body: seq<byte>)
    requires convertedLoop == 0 || 0x100 <= convertedLoop < TWO32
    requires gd3Start == 0 || 0x100 <= gd3Start < TWO32
    ensures var file := CacheHeader(src, finalSize, gd3Start, convertedLoop, loopCount, opmClock) + body;
      ParsedHeader(file) == Some(CachedSongHeader(src, finalSize, convertedLoop, loopCount, opmClock)) &&
      Gd3OffsetOf(file) == gd3Start
  {
    var w := CacheWords(src, finalSize, gd3Start, convertedLoop, loopCount, opmClock);
    var b := CacheHeader(src, finalSize, gd3Start, convertedLoop, loopCount, opmClock);
    assert w[0] == MAGIC_WORD;
    MagicFromWord(w);
    CacheHeaderTailZero(src, finalSize, gd3Start, convertedLoop, loopCount, opmClock);
    FieldsOfCacheHeader(src, finalSize, gd3Start, convertedLoop, loopCount, opmClock);
    CacheGd3Field(src, finalSize, gd3Start, convertedLoop, loopCount, opmClock);
    BufferParses(b, body);
  }

  /** A run of words starting with `MAGIC_WORD` starts with the bytes "Vgm ". */
  lemma MagicFromWord(w: seq<u32>)
    requires |w| > 0 && w[0] == MAGIC_WORD
    ensures WordsToBytes(w)[..4] == VGM_MAGIC
  {
    ByteAt(w, 0, 0);
    ByteAt(w, 0, 1);
    ByteAt(w, 0, 2);
    ByteAt(w, 0, 3);
    assert Le32Bytes(MAGIC_WORD) == VGM_MAGIC;
  }

  /** The GD3 field of the cache header points at `gd3Start`, or is zero when there is no block. */
  lemma CacheGd3Field(src: Header, finalSize: nat, gd3Start: nat, convertedLoop: nat, loopCount: int, opmClock: u32)
    requires gd3Start == 0 || 0x100 <= gd3Start < TWO32
    ensures ReadRelOfs(CacheHeader(src, finalSize, gd3Start, convertedLoop, loopCount, opmClock), 0x14) == gd3Start
  {
    var w := CacheWords(src, finalSize, gd3Start, convertedLoop, loopCount, opmClock);
    if gd3Start > 0 {
      assert (gd3Start - 0x14) % TWO32 == gd3Start - 0x14;
    }
    assert w[5] == CacheWord(src, finalSize, gd3Start, convertedLoop, loopCount, opmClock, 5);
    RelFieldAt(w, 5, gd3Start);
  }

  /** A word holding `target - 4 * k` reads back, relative to its own place, as `target`. */
  lemma RelFieldAt(w: seq<u32>, k: nat, target: nat)
    requires k < |w| && 4 * k + 4 <= 4 * |w|
    requires target == 0 || 4 * k < target < TWO32
    requires w[k] == if target > 0 then target - 4 * k else 0
    ensures ReadRelOfs(WordsToBytes(w), 4 * k) == target
  {
    WordAt(w, k);
  }

  /**
   * A full header buffer that is zero from 0x38 on is what `vgm_parse_header`
   * reads back from any file that starts with it.
   */
  lemma BufferParses(b: seq<byte>, body: seq<byte>)
    requires |b| == 0x100 && b[..4] == VGM_MAGIC
    requires forall i :: 0x38 <= i < 0x100 ==> b[i] == 0
    ensures ParsedHeader(b + body) == Some(FieldsOf(b))
    ensures Gd3OffsetOf(b + body) == ReadRelOfs(b, 0x14)
  {
    var file := b + body;
    assert file[..4] == b[..4];
    assert Le32At(file, 0x08) == Le32At(b, 0x08);
    assert Le32At(file, 0x14) == Le32At(b, 0x14);
    var hb := HdrBuf(file, Zeros(0x100), ReadLen(Le32At(b, 0x08)));
    assert hb == b;
  }

  /**
   * A cache of version 1.10 or later, with the YM2151's clock nonzero, is
   * played as a YM2151 song.
   */
  lemma CacheIsOpmSong(src: Header, finalSize: nat, gd3Start: nat, convertedLoop: nat, loopCount: int, opmClock: u32, body: seq<byte>)
    requires convertedLoop == 0 || 0x100 <= convertedLoop < TWO32
    requires gd3Start == 0 || 0x100 <= gd3Start < TWO32
    requires src.version >= 0x110 && opmClock > 0
    ensures var file := CacheHeader(src, finalSize, gd3Start, convertedLoop, loopCount, opmClock) + body;
      ParsedHeader(file).Some? && PrimaryChip(ParsedHeader(file).value) == YM2151
  {
    CacheHeaderParses(src, finalSize, gd3Start, convertedLoop, loopCount, opmClock, body);
  }
}
