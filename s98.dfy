// The S98 player of v0.83/console_player/s98.c: header parsing, timer
// selection, the 7-bit sync value and the opcode dispatch loop. The SPFM
// calls the loop makes are recorded as a log of `Action`s (the buffer they
// feed is modelled in module Spfm).

module S98 {
  import opened Bytes
  import opened ChipType
  import Util

  /** The header fields `s98_parse_header` fills in. */
  datatype Header = Header(
    version: byte,
    timerInfo: u32,
    timerInfo2: u32,
    compressing: u32,
    offsetToDump: u32,
    offsetToLoop: u32,
    deviceCount: u32)

  const HEADER_SIZE: nat := 0x20
  const MAGIC: seq<byte> := [0x53, 0x39, 0x38]   // "S98"

  /** `s98_parse_header` as a value: `None` for a short buffer or a wrong magic. */
  function ParseHeader(buffer: seq<byte>): (h: Option<Header>)
    ensures h.Some? <==> |buffer| >= HEADER_SIZE && buffer[..3] == MAGIC
  {
    if |buffer| < HEADER_SIZE || buffer[..3] != MAGIC then None
    else Some(Header(buffer[3], Le32At(buffer, 4), Le32At(buffer, 8), Le32At(buffer, 12),
                     Le32At(buffer, 16), Le32At(buffer, 20), Le32At(buffer, 24)))
  }

  /** The 0x20-byte header image that `ParseHeader` reads back (bytes 28..31 are reserved). */
  function HeaderBytes(h: Header): (s: seq<byte>)
    ensures |s| == HEADER_SIZE
  {
    MAGIC + [h.version] + Le32Bytes(h.timerInfo) + Le32Bytes(h.timerInfo2) +
    Le32Bytes(h.compressing) + Le32Bytes(h.offsetToDump) + Le32Bytes(h.offsetToLoop) +
    Le32Bytes(h.deviceCount) + [0, 0, 0, 0]
  }

  /** Every header, written out and followed by any dump, parses back to itself. */
  lemma HeaderRoundTrip(h: Header, rest: seq<byte>)
    ensures ParseHeader(HeaderBytes(h) + rest) == Some(h)
  {
    var s := HeaderBytes(h) + rest;
    assert s[..3] == MAGIC;
    Le32BytesRoundTrip(h.timerInfo);
    Le32BytesRoundTrip(h.timerInfo2);
    Le32BytesRoundTrip(h.compressing);
    Le32BytesRoundTrip(h.offsetToDump);
    Le32BytesRoundTrip(h.offsetToLoop);
    Le32BytesRoundTrip(h.deviceCount);
    assert s[4..8] == Le32Bytes(h.timerInfo);
    assert s[8..12] == Le32Bytes(h.timerInfo2);
    assert s[12..16] == Le32Bytes(h.compressing);
    assert s[16..20] == Le32Bytes(h.offsetToDump);
    assert s[20..24] == Le32Bytes(h.offsetToLoop);
    assert s[24..28] == Le32Bytes(h.deviceCount);
  }

  // ------------------------------------------------------------- timer mode

  datatype TimerMode = Ntsc | Pal

  /** `s98_play`'s choice of sync timing. */
  function TimerModeOf(h: Header): (m: TimerMode)
    ensures m == Pal <==> h.timerInfo != 0 && h.timerInfo2 == 198
  {
    if h.timerInfo != 0 && h.timerInfo2 != 0 && h.timerInfo2 == 198 then Pal else Ntsc
  }

  /** Length of one sync unit, in microseconds. */
  function SyncWaitUs(m: TimerMode): (us: nat)
    ensures m == Pal ==> us == 20000
    ensures m == Ntsc ==> us == 10000
  {
    if m == Pal then 20000 else 10000
  }

  // ------------------------------------------------------- the sync value

  const MAX_GROUPS: nat := 5   // shifts 0, 7, 14, 21, 28; the next would be 35 >= 32

  /**
   * Number of bytes `s98_get_val` consumes from `rest`: up to and including
   * the first byte without bit 0x80, but never more than `groups` bytes and
   * never beyond the end of the buffer.
   */
  function ValLen(rest: seq<byte>, groups: nat): (n: nat)
    requires groups >= 1
    ensures n <= |rest| && n <= groups
    ensures rest != [] ==> n >= 1
  {
    if rest == [] then 0
    else if rest[0] < 0x80 || groups == 1 then 1
    else 1 + ValLen(rest[1..], groups - 1)
  }

  /**
   * The value `s98_get_val` returns once it has consumed `used`: its 7-bit
   * groups, least significant first, cut to 32 bits (the disjoint groups
   * make the source's bitwise or a sum).
   */
  function ValOf(used: seq<byte>): (v: u32)
  {
    Util.Groups(used, 0) % TWO32
  }

  /** Writing a 32-bit value as 7-bit groups and reading it back yields the value and its length. */
  lemma {:induction false} GetValRoundTrip(v: u32, rest: seq<byte>)
    ensures var e := Util.EncodeVarint(v);
      ValLen(e + rest, MAX_GROUPS) == |e| && ValOf(e) == v
  {
    var e := Util.EncodeVarint(v);
    Pow2Is32();
    Util.Pow2Add(32, 3);
    Util.EncodeVarintLength(v, 5);
    Util.EncodeVarintEnds(v);
    EncodedLen(e, rest, MAX_GROUPS);
    Util.GroupsOfEncode(v, 0);
  }

  lemma Pow2Is32()
    ensures Util.Pow2(32) == TWO32
  {
    Util.Pow2Add(16, 16);
    Util.Pow2Add(8, 8);
    assert Util.Pow2(8) == 0x100;
  }

  lemma {:induction false} EncodedLen(e: seq<byte>, rest: seq<byte>, groups: nat)
    requires 1 <= |e| <= groups
    requires Util.VarintEnd(e) == Some(|e| - 1)
    ensures ValLen(e + rest, groups) == |e|
  {
    if |e| > 1 {
      assert e[0] >= 0x80;
      assert (e + rest)[1..] == e[1..] + rest;
      assert Util.VarintEnd(e[1..]) == Some(|e| - 2);
      EncodedLen(e[1..], rest, groups - 1);
    }
  }

  lemma ValOfSnoc(rest: seq<byte>, n: nat)
    requires n < |rest|
    ensures ValOf(rest[..n + 1]) == (ValOf(rest[..n]) + Util.Group(rest[n], 7 * n)) % TWO32
  {
    assert rest[..n + 1] == rest[..n] + [rest[n]];
    Util.GroupsSnoc(rest[..n], rest[n], 0);
    Util.ModAdd32(Util.Groups(rest[..n], 0), Util.Group(rest[n], 7 * n));
  }

  lemma ValLenStep(rest: seq<byte>, n: nat, groups: nat)
    requires n < |rest| && groups >= 1
    ensures ValLen(rest[n..], groups) ==
      if rest[n] < 0x80 || groups == 1 then 1 else 1 + ValLen(rest[n + 1..], groups - 1)
  {
    assert rest[n..][1..] == rest[n + 1..];
  }

  /** One group read by `s98_get_val`: the value and the length so far, one byte on. */
  lemma GetValStep(rest: seq<byte>, n: nat, groups: nat, acc: u32)
    requires n < |rest| && groups >= 1
    requires ValLen(rest, MAX_GROUPS) == n + ValLen(rest[n..], groups)
    requires acc == ValOf(rest[..n])
    ensures (acc + Util.Group(rest[n], 7 * n)) % TWO32 == ValOf(rest[..n + 1])
    ensures rest[n] < 0x80 || groups == 1 ==> ValLen(rest, MAX_GROUPS) == n + 1
    ensures !(rest[n] < 0x80 || groups == 1) ==>
      ValLen(rest, MAX_GROUPS) == n + 1 + ValLen(rest[n + 1..], groups - 1)
  {
    ValOfSnoc(rest, n);
    ValLenStep(rest, n, groups);
  }

  /** The unread bytes from `p` on. */
  function Rest(buffer: seq<byte>, p: nat): (r: seq<byte>)
    ensures p < |buffer| ==> r == buffer[p..]
    ensures p >= |buffer| ==> r == []
  {
    if p < |buffer| then buffer[p..] else []
  }

  // ------------------------------------------------------------- actions

  /** An SPFM call made by the dispatch loop; the slot is that of the named chip. */
  datatype Action =
    | WriteReg(chip: Chip, port: byte, addr: byte, data: byte)   // `spfm_write_reg`
    | WriteData(chip: Chip, data: byte)                          // `spfm_write_data`
    | Flush                                                      // `spfm_flush`
    | Wait(samples: u32)                                         // `spfm_wait_and_write_reg(w, 0, 0, 0, 0)`

  /** The chip that opcodes 0x00..0x08 address. */
  function OpChip(cmd: byte): (c: Chip)
    requires cmd <= 0x08
    ensures c != NoChip
  {
    [YM2151, YM2203, YM2612, YM2608, YM2413, YM3812, YM3526, Y8950, YMF262][cmd]
  }

  /**
   * Samples waited for a 0xFF sync of `val` units: `sync_count = val + 1` in
   * 32 bits, then `count * wait * 44100 / 1000000` in 64 bits, passed on as a
   * 32-bit argument.
   */
  function SyncSamples(val: u32, syncWaitUs: nat): (w: u32)
    requires syncWaitUs <= 20000
    ensures val < 0xFFFF_FFFF ==> w == ((val + 1) * syncWaitUs * 44100 / 1000000) % TWO32
  {
    var count := (val + 1) % TWO32;
    (count * syncWaitUs * 44100 / 1000000) % TWO32
  }

  /** Samples waited for a 0xFE sync of `val` milliseconds. */
  function MillisSamples(val: u32): (w: u32)
    ensures w == (val * 441 / 10) % TWO32
  {
    (val * 1000 * 44100 / 1000000) % TWO32
  }

  /** Operand byte at `i`; past the end of the buffer it reads as 0. */
  function Operand(buffer: seq<byte>, i: nat): (b: byte)
    ensures i < |buffer| ==> b == buffer[i]
  {
    if i < |buffer| then buffer[i] else 0
  }

  /** What one pass of the dispatch loop does: its SPFM calls, the next cursor, and whether it ends playback. */
  datatype Pass = Pass(calls: seq<Action>, next: nat, stops: bool)

  /**
   * The pass at `p` of a buffer whose loop offset is `loop`, under `timer`.
   * Every pass but the loop jump moves forward, only 0xFC stops, only chip
   * writes on port 0 are made, and a sync flushes before it waits.
   */
  function PassAt(buffer: seq<byte>, loop: nat, timer: TimerMode, p: nat): (t: Pass)
    requires p < |buffer|
    ensures t.next > p || (buffer[p] == 0xFD && t.next == loop != 0)
    ensures t.stops <==> buffer[p] == 0xFC
    ensures forall i :: 0 <= i < |t.calls| && t.calls[i].WriteReg? ==> t.calls[i].port == 0
    ensures buffer[p] in {0xFE, 0xFF} <==> |t.calls| > 0 && t.calls[0] == Flush
  {
    var cmd := buffer[p];
    if cmd <= 0x08 then Pass([WriteReg(OpChip(cmd), 0, Operand(buffer, p + 1), Operand(buffer, p + 2))], p + 3, false)
    else if cmd == 0x10 then Pass([WriteReg(AY8910, 0, Operand(buffer, p + 1), Operand(buffer, p + 2))], p + 3, false)
    else if cmd == 0x11 then Pass([WriteData(SN76489, Operand(buffer, p + 1))], p + 2, false)
    else if cmd == 0xFF || cmd == 0xFE then
      var r := Rest(buffer, p + 1);
      var n := ValLen(r, MAX_GROUPS);
      var v := ValOf(r[..n]);
      Pass([Flush] + (if cmd == 0xFF then [Wait(SyncSamples(v, SyncWaitUs(timer)))]
                      else if v > 0 then [Wait(MillisSamples(v))] else []), p + 1 + n, false)
    else if cmd == 0xFD then Pass([], if loop != 0 then loop else p + 1, false)
    else if cmd == 0xFC then Pass([], p + 1, true)
    else if 0x12 <= cmd <= 0x1F then Pass([], p + 2, false)
    else if cmd >= 0x80 then Pass([], p + 3, false)
    else Pass([], p + 1, false)
  }

  /**
   * The calls of at most `steps` passes from `p`, while playing and inside
   * the buffer: every register write they make goes to port 0.
   */
  function RunCalls(buffer: seq<byte>, loop: nat, timer: TimerMode, p: nat, playing: bool, steps: nat): (calls: seq<Action>)
    ensures forall i :: 0 <= i < |calls| && calls[i].WriteReg? ==> calls[i].port == 0
    decreases steps
  {
    if steps == 0 || !playing || p >= |buffer| then []
    else
      var t := PassAt(buffer, loop, timer, p);
      t.calls + RunCalls(buffer, loop, timer, t.next, !t.stops, steps - 1)
  }

  /** One pass of `RunCalls`. */
  lemma RunCallsStep(buffer: seq<byte>, loop: nat, timer: TimerMode, p: nat, steps: nat)
    requires p < |buffer| && steps > 0
    ensures var t := PassAt(buffer, loop, timer, p);
      RunCalls(buffer, loop, timer, p, true, steps) == t.calls + RunCalls(buffer, loop, timer, t.next, !t.stops, steps - 1)
  {
  }

  /** `RunCalls` once the passes, the playing flag or the buffer have run out. */
  lemma RunCallsDone(buffer: seq<byte>, loop: nat, timer: TimerMode, p: nat, playing: bool, steps: nat)
    requires steps == 0 || !playing || p >= |buffer|
    ensures RunCalls(buffer, loop, timer, p, playing, steps) == []
  {
  }

  /** A sync of one unit, `0xFF 0x00`: a flush and the wait for that unit. */
  lemma PassAtSync(buffer: seq<byte>, loop: nat, timer: TimerMode, p: nat)
    requires p + 1 < |buffer| && buffer[p] == 0xFF && buffer[p + 1] == 0x00
    ensures PassAt(buffer, loop, timer, p).calls == [Flush, Wait(SyncSamples(0, SyncWaitUs(timer)))]
  {
    var r := Rest(buffer, p + 1);
    assert r[0] == 0x00;
    assert ValLen(r, MAX_GROUPS) == 1;
    assert r[..1] == [0x00];
    assert ValOf(r[..1]) == 0 by {
      assert Util.Groups([0x00], 0) == 0;
    }
  }

  /**
   * The timer chosen from the header sets the length of a sync: a dump that
   * opens with a sync of one unit flushes and then waits 882 samples under
   * PAL and 441 under NTSC.
   */
  lemma {:induction false} SyncFollowsTimer(buffer: seq<byte>, h: Header, steps: nat)
    requires ParseHeader(buffer) == Some(h) && steps > 0
    requires h.offsetToDump + 1 < |buffer| && buffer[h.offsetToDump] == 0xFF && buffer[h.offsetToDump + 1] == 0x00
    ensures RunCalls(buffer, h.offsetToLoop, TimerModeOf(h), h.offsetToDump, true, steps)[..2]
      == [Flush, Wait(if TimerModeOf(h) == Pal then 882 else 441)]
  {
    hide RunCalls, PassAt, ParseHeader, SyncSamples;
    var p := h.offsetToDump;
    var m := TimerModeOf(h);
    RunCallsStep(buffer, h.offsetToLoop, m, p, steps);
    PassAtSync(buffer, h.offsetToLoop, m, p);
    SyncOfOneUnit(m);
  }

  lemma SyncOfOneUnit(m: TimerMode)
    ensures SyncSamples(0, SyncWaitUs(m)) == if m == Pal then 882 else 441
  {
  }

  /**
   * The player: the loaded buffer, the parsed header fields, the cursor
   * `pos`, the `g_is_playing` flag and the SPFM calls made so far.
   */
  class Player {
    const buffer: seq<byte>
    var header: Header
    var pos: nat
    var playing: bool
    var actions: seq<Action>

    constructor (buffer: seq<byte>)
      ensures this.buffer == buffer && pos == 0 && playing && actions == []
    {
      this.buffer := buffer;
      header := Header(0, 0, 0, 0, 0, 0, 0);
      pos := 0;
      playing := true;
      actions := [];
    }

    /** `s98_parse_header`: on success the fields are read and `pos` is the dump offset. */
    method ParseHeaderInto() returns (ok: bool)
      modifies this
      ensures ok <==> ParseHeader(buffer).Some?
      ensures ok ==> header == ParseHeader(buffer).value && pos == header.offsetToDump
      ensures !ok ==> header == old(header) && pos == old(pos)
      ensures playing == old(playing) && actions == old(actions)
    {
      var h := ParseHeader(buffer);
      if h.None? {
        return false;
      }
      header := h.value;
      pos := header.offsetToDump;
      return true;
    }

    /** `s98_get_val`. */
    method GetVal() returns (val: u32)
      modifies this`pos
      ensures var rest := Rest(buffer, old(pos));
        var n := ValLen(rest, MAX_GROUPS);
        pos == old(pos) + n && val == ValOf(rest[..n])
      ensures header == old(header) && playing == old(playing) && actions == old(actions)
    {
      if pos >= |buffer| {
        return 0;
      }
      var start := pos;
      ghost var rest := buffer[start..];
      assert rest == Rest(buffer, start);
      assert rest[..0] == [] && rest[0..] == rest;
      assert ValOf(rest[..0]) == 0;
      hide ValOf, ValLen, Util.Group, Rest;
      var acc := 0;
      var shift := 0;
      var groups := MAX_GROUPS;
      var n := 0;
      while start + n < |buffer|
        invariant n <= |rest| && groups >= 1 && groups + n == MAX_GROUPS && shift == 7 * n
        invariant ValLen(rest, MAX_GROUPS) == n + ValLen(rest[n..], groups)
        invariant acc == ValOf(rest[..n])
        decreases |rest| - n
      {
        var b := buffer[start + n];
        assert rest[n] == b;
        GetValStep(rest, n, groups, acc);
        acc := (acc + Util.Group(b, shift)) % TWO32;
        n := n + 1;
        if b < 0x80 || groups == 1 {
          pos := start + n;
          return acc;
        }
        shift := shift + 7;
        groups := groups - 1;
      }
      assert rest[n..] == [];
      pos := start + n;
      return acc;
    }

    /**
     * One pass of the `s98_play_loop` body at `pos < size`: the opcode and its
     * operands are consumed and the resulting SPFM calls recorded.
     */
    method Step(timer: TimerMode)
      requires pos < |buffer|
      modifies this
      ensures header == old(header)
      ensures var t := PassAt(buffer, header.offsetToLoop, timer, old(pos));
        actions == old(actions) + t.calls && pos == t.next && playing == (old(playing) && !t.stops)
      ensures |actions| >= |old(actions)| && actions[..|old(actions)|] == old(actions)
      ensures pos > old(pos) || (buffer[old(pos)] == 0xFD && pos == header.offsetToLoop)
      ensures playing == (old(playing) && buffer[old(pos)] != 0xFC)
      ensures buffer[old(pos)] <= 0x08 ==> (pos == old(pos) + 3 &&
        actions == old(actions) + [WriteReg(OpChip(buffer[old(pos)]), 0, Operand(buffer, old(pos) + 1), Operand(buffer, old(pos) + 2))])
      ensures buffer[old(pos)] == 0x10 ==> (pos == old(pos) + 3 &&
        actions == old(actions) + [WriteReg(AY8910, 0, Operand(buffer, old(pos) + 1), Operand(buffer, old(pos) + 2))])
      ensures buffer[old(pos)] == 0x11 ==> (pos == old(pos) + 2 &&
        actions == old(actions) + [WriteData(SN76489, Operand(buffer, old(pos) + 1))])
      ensures 0x12 <= buffer[old(pos)] <= 0x1F ==> pos == old(pos) + 2 && actions == old(actions)
      ensures 0x80 <= buffer[old(pos)] < 0xFC ==> pos == old(pos) + 3 && actions == old(actions)
      ensures (0x09 <= buffer[old(pos)] <= 0x0F || 0x20 <= buffer[old(pos)] < 0x80) ==>
        pos == old(pos) + 1 && actions == old(actions)
      ensures buffer[old(pos)] == 0xFD ==> (actions == old(actions) &&
        pos == (if header.offsetToLoop != 0 then header.offsetToLoop else old(pos) + 1))
      ensures buffer[old(pos)] == 0xFC ==> pos == old(pos) + 1 && actions == old(actions)
      ensures buffer[old(pos)] in {0xFE, 0xFF} ==>
        var r := Rest(buffer, old(pos) + 1);
        var n := ValLen(r, MAX_GROUPS);
        var v := ValOf(r[..n]);
        pos == old(pos) + 1 + n &&
        actions == old(actions) + [Flush] +
          (if buffer[old(pos)] == 0xFF then [Wait(SyncSamples(v, SyncWaitUs(timer)))]
           else if v > 0 then [Wait(MillisSamples(v))] else [])
    {
      hide ValLen, ValOf, SyncSamples, MillisSamples, Rest, OpChip;
      var cmd := buffer[pos];
      pos := pos + 1;
      if cmd <= 0x08 || cmd == 0x10 {
        var addr := Operand(buffer, pos);
        var data := Operand(buffer, pos + 1);
        pos := pos + 2;
        // `addr` is a byte, so `(addr & 0x100) ? 1 : 0` always selects port 0
        var chip := if cmd == 0x10 then AY8910 else OpChip(cmd);
        actions := actions + [WriteReg(chip, 0, addr, data)];
      } else if cmd == 0x11 {
        var data := Operand(buffer, pos);
        pos := pos + 1;
        actions := actions + [WriteData(SN76489, data)];
      } else if cmd == 0xFF {
        actions := actions + [Flush];
        var v := GetVal();
        actions := actions + [Wait(SyncSamples(v, SyncWaitUs(timer)))];
      } else if cmd == 0xFE {
        actions := actions + [Flush];
        var v := GetVal();
        if v > 0 {
          actions := actions + [Wait(MillisSamples(v))];
        }
      } else if cmd == 0xFD {
        if header.offsetToLoop != 0 {
          pos := header.offsetToLoop;
        }
      } else if cmd == 0xFC {
        playing := false;
      } else if 0x12 <= cmd <= 0x1F {
        pos := pos + 1;
      } else if cmd >= 0x80 {
        pos := pos + 2;
      }
    }

    /**
     * `s98_play_loop` for at most `steps` passes (the bound stands for the
     * user's stop, next and previous requests): it runs while playing and
     * `pos < size`, then flushes and clears `g_is_playing`.
     */
    method PlayLoop(timer: TimerMode, steps: nat)
      modifies this
      ensures !playing && header == old(header)
      ensures actions == old(actions) + RunCalls(buffer, header.offsetToLoop, timer, old(pos), old(playing), steps) + [Flush]
      ensures forall i :: |old(actions)| <= i < |actions| && actions[i].WriteReg? ==> actions[i].port == 0
    {
      hide RunCalls, PassAt;
      ghost var goal := old(actions) + RunCalls(buffer, header.offsetToLoop, timer, pos, playing, steps);
      var n := 0;
      while n < steps && playing && pos < |buffer|
        invariant header == old(header) && n <= steps
        invariant goal == actions + RunCalls(buffer, header.offsetToLoop, timer, pos, playing, steps - n)
        decreases steps - n
      {
        ghost var before := actions;
        ghost var t := PassAt(buffer, header.offsetToLoop, timer, pos);
        ghost var rest := RunCalls(buffer, header.offsetToLoop, timer, t.next, !t.stops, steps - n - 1);
        RunCallsStep(buffer, header.offsetToLoop, timer, pos, steps - n);
        Step(timer);
        assert before + (t.calls + rest) == actions + rest;
        n := n + 1;
      }
      RunCallsDone(buffer, header.offsetToLoop, timer, pos, playing, steps - n);
      actions := actions + [Flush];
      playing := false;
    }
  }

  /**
   * `s98_play`: a buffer whose header does not parse is refused with no SPFM
   * call; otherwise the loop runs from the dump offset with the timer chosen
   * by the header and ends with a flush.
   */
  method Play(buffer: seq<byte>, steps: nat) returns (ok: bool, calls: seq<Action>)
    ensures ok <==> ParseHeader(buffer).Some?
    ensures !ok ==> calls == []
    ensures ok ==> |calls| >= 1 && calls[|calls| - 1] == Flush
    ensures ok ==> var h := ParseHeader(buffer).value;
      calls == RunCalls(buffer, h.offsetToLoop, TimerModeOf(h), h.offsetToDump, true, steps) + [Flush]
    ensures forall i :: 0 <= i < |calls| && calls[i].WriteReg? ==> calls[i].port == 0
  {
    var p := new Player(buffer);
    ok := p.ParseHeaderInto();
    if !ok {
      return false, [];
    }
    p.PlayLoop(TimerModeOf(p.header), steps);
    calls := p.actions;
  }
}
