// The VGM header reader of v0.903/console_player/vgm.c: relative offsets,
// the version-gated header fields, the GD3 tag strings, and the choice of the
// chip a file is played for. Field offsets follow the VGM 1.71 header layout.

module V0903VgmHeader {
  import opened Bytes
  import opened ChipType

  /** "Vgm " */
  const VGM_MAGIC: seq<byte> := [0x56, 0x67, 0x6D, 0x20]
  /** "Gd3 " */
  const GD3_MAGIC: seq<byte> := [0x47, 0x64, 0x33, 0x20]

  /** The fields `vgm_parse_header` fills in (the GD3 strings come separately). */
  datatype Header = Header(
    version: u32,
    eofOffset: u32,
    totalSamples: u32,
    loopOffset: u32,
    loopSamples: u32,
    dataOffset: u32,
    sn76489Clock: u32,
    ym2413Clock: u32,
    rate: u32,
    sn76489Feedback: u16,
    sn76489ShiftWidth: byte,
    ym2612Clock: u32,
    ym2151Clock: u32,
    ym2203Clock: u32,
    ym2608Clock: u32,
    ay8910Clock: u32)

  /** The header after `memset(header, 0, ...)`, returned when parsing fails. */
  const EMPTY: Header := Header(0, 0, 0, 0, 0, 0, 0, 0, 0, 0, 0, 0, 0, 0, 0, 0)

  // ------------------------------------------------------ relative offsets

  /**
   * `read_rel_ofs`: a field holding an offset relative to its own position;
   * 0 means the thing is absent. The sum is a `uint32_t` and wraps.
   */
  function ReadRelOfs(buf: seq<byte>, base: nat): (r: u32)
    requires base + 4 <= |buf|
    ensures Le32At(buf, base) == 0 ==> r == 0
  {
    RelOf(Le32At(buf, base), base)
  }

  /** The offset a relative field holding `v` at `base` stands for. */
  function RelOf(v: u32, base: nat): (r: u32)
  {
    if v != 0 then (base + v) % TWO32 else 0
  }

  /** `write_le32`: the four bytes at `at` replaced by `v`, least-significant first. */
  function WriteLe32(buf: seq<byte>, at: nat, v: u32): (r: seq<byte>)
    requires at + 4 <= |buf|
    ensures |r| == |buf|
    ensures r[at..at + 4] == Le32Bytes(v)
    ensures forall i :: 0 <= i < |buf| && !(at <= i < at + 4) ==> r[i] == buf[i]
  {
    buf[..at] + Le32Bytes(v) + buf[at + 4..]
  }

  /** `write_le32` followed by `read_le32` at the same place yields the value written. */
  lemma WriteThenReadLe32(buf: seq<byte>, at: nat, v: u32)
    requires at + 4 <= |buf|
    ensures Le32At(WriteLe32(buf, at, v), at) == v
  {
    var r := WriteLe32(buf, at, v);
    Le32BytesRoundTrip(v);
    assert r[at..at + 4] == Le32Bytes(v);
    assert Le32At(r, at) == Le32At(r[at..at + 4], 0);
  }

  /**
   * A relative field written as `target - base` (as the cache writer does)
   * reads back as `target`; a zero field reads back as "absent".
   */
  lemma RelOfsRoundTrip(buf: seq<byte>, base: nat, target: u32)
    requires base + 4 <= |buf| && base < TWO32
    ensures var r := ReadRelOfs(WriteLe32(buf, base, (target - base) % TWO32), base);
      (target != base ==> r == target) && (target == base ==> r == 0)
  {
    var v := (target - base) % TWO32;
    WriteThenReadLe32(buf, base, v);
    if target >= base {
      assert v == target - base;
    } else {
      assert v == target - base + TWO32;
      assert (base + v) % TWO32 == target;
    }
  }

  // ---------------------------------------------------------- header buffer

  /** How much of the header `vgm_parse_header` reads for a given version. */
  function ReadLen(version: u32): (n: nat)
    ensures 0x40 <= n <= 0xE4
  {
    if version >= 0x171 then 0xE4
    else if version >= 0x170 then 0xC0
    else if version >= 0x161 then 0xB8
    else if version >= 0x151 then 0x80
    else 0x40
  }

  /**
   * The 0x100-byte `hdr_buf` after the reads: the first `n` bytes of the file,
   * or as many as it has, and `stale` (whatever the buffer held) beyond them.
   */
  function HdrBuf(file: seq<byte>, stale: seq<byte>, n: nat): (b: seq<byte>)
    requires |stale| == 0x100
    ensures |b| == 0x100
    ensures forall i :: 0 <= i < 0x100 ==> b[i] == (if i < n && i < |file| then file[i] else stale[i])
  {
    seq(0x100, i requires 0 <= i < 0x100 => if i < n && i < |file| then file[i] else stale[i])
  }

  /** The data offset: relative field at 0x34 from version 1.50, 0x40 before or when 0. */
  function DataOffsetOf(b: seq<byte>, version: u32): (r: u32)
    requires |b| == 0x100
    ensures r != 0
    ensures version < 0x150 || Le32At(b, 0x34) == 0 ==> r == 0x40
  {
    var rel := if version >= 0x150 then ReadRelOfs(b, 0x34) else 0x40;
    if rel == 0 then 0x40 else rel
  }

  /** The header fields read out of a filled buffer, each under its version gate. */
  function FieldsOf(b: seq<byte>): (h: Header)
    requires |b| == 0x100
  {
    var version := Le32At(b, 0x08);
    var v110 := version >= 0x110;
    var v151 := version >= 0x151;
    Header(
      version,
      Le32At(b, 0x04),
      Le32At(b, 0x18),
      ReadRelOfs(b, 0x1C),
      Le32At(b, 0x20),
      DataOffsetOf(b, version),
      Le32At(b, 0x0C),
      Le32At(b, 0x10),
      if version >= 0x101 then Le32At(b, 0x24) else 0,
      if v110 then Le16At(b, 0x28) else 0,
      if v110 then b[0x2A] else 0,
      if v110 then Le32At(b, 0x2C) else 0,
      if v110 then Le32At(b, 0x30) else 0,
      if v151 then Le32At(b, 0x44) else 0,
      if v151 then Le32At(b, 0x48) else 0,
      if v151 then Le32At(b, 0x74) else 0)
  }

  /**
   * `vgm_parse_header` as written: `None` when the first 0x40 bytes cannot be
   * read or the magic is not "Vgm "; otherwise the fields of a buffer holding
   * `ReadLen(version)` bytes of the file, or fewer when the file is shorter
   * (the short read only warns), and the buffer's earlier contents `stale`
   * beyond them.
   */
  function HeaderOf(file: seq<byte>, stale: seq<byte>): (h: Option<Header>)
    requires |stale| == 0x100
    ensures h.Some? <==> |file| >= 0x40 && file[..4] == VGM_MAGIC
    ensures h.Some? ==> h.value.version == Le32At(file, 0x08) && h.value.eofOffset == Le32At(file, 0x04)
    ensures h.Some? ==> h.value.dataOffset != 0
    ensures h.Some? && h.value.version < 0x150 ==> h.value.dataOffset == 0x40
    ensures h.Some? && h.value.version < 0x101 ==> h.value.rate == 0
    ensures h.Some? && h.value.version < 0x110 ==>
      (h.value.ym2612Clock == 0 && h.value.ym2151Clock == 0 &&
       h.value.sn76489Feedback == 0 && h.value.sn76489ShiftWidth == 0)
    ensures h.Some? && h.value.version < 0x151 ==>
      (h.value.ym2203Clock == 0 && h.value.ym2608Clock == 0 && h.value.ay8910Clock == 0)
  {
    if |file| < 0x40 || file[..4] != VGM_MAGIC then None
    else
      var b := HdrBuf(file, stale, ReadLen(Le32At(file, 0x08)));
      assert b[0x08..0x0C] == file[0x08..0x0C];
      Some(FieldsOf(b))
  }

  /**
   * Every field a version reads lies inside what that version reads from the
   * file: once the file holds `ReadLen(version)` bytes, the buffer's earlier
   * contents make no difference to the result.
   */
  lemma {:induction false} HeaderIgnoresStale(file: seq<byte>, s1: seq<byte>, s2: seq<byte>)
    requires |s1| == 0x100 && |s2| == 0x100
    requires |file| >= 0x40 && |file| >= ReadLen(Le32At(file, 0x08))
    ensures HeaderOf(file, s1) == HeaderOf(file, s2)
  {
    var n := ReadLen(Le32At(file, 0x08));
    var b1 := HdrBuf(file, s1, n);
    var b2 := HdrBuf(file, s2, n);
    assert b1[0x08] == b2[0x08];
    FieldsAgree(b1, b2, n);
  }

  /** Buffers agreeing on what their version reads have the same fields. */
  lemma FieldsAgree(b1: seq<byte>, b2: seq<byte>, n: nat)
    requires |b1| == 0x100 && |b2| == 0x100 && 0x40 <= n <= 0x100
    requires forall i :: 0 <= i < n ==> b1[i] == b2[i]
    requires Le32At(b1, 0x08) >= 0x151 ==> n >= 0x80
    ensures FieldsOf(b1) == FieldsOf(b2)
  {
    BaseFieldsAgree(b1, b2);
    var version := Le32At(b1, 0x08);
    RelOfsAgree(b1, b2, 0x1C);
    RelOfsAgree(b1, b2, 0x34);
    assert DataOffsetOf(b1, version) == DataOffsetOf(b2, version);
    if version >= 0x151 {
      WordAgrees(b1, b2, 0x44);
      WordAgrees(b1, b2, 0x48);
      WordAgrees(b1, b2, 0x74);
    }
  }

  lemma RelOfsAgree(b1: seq<byte>, b2: seq<byte>, base: nat)
    requires base + 4 <= |b1| && base + 4 <= |b2| && Le32At(b1, base) == Le32At(b2, base)
    ensures ReadRelOfs(b1, base) == ReadRelOfs(b2, base)
  {
  }

  lemma WordAgrees(b1: seq<byte>, b2: seq<byte>, at: nat)
    requires at + 4 <= |b1| && at + 4 <= |b2|
    requires b1[at] == b2[at] && b1[at + 1] == b2[at + 1] && b1[at + 2] == b2[at + 2] && b1[at + 3] == b2[at + 3]
    ensures Le32At(b1, at) == Le32At(b2, at)
  {
  }

  lemma BaseFieldsAgree(b1: seq<byte>, b2: seq<byte>)
    requires |b1| == 0x100 && |b2| == 0x100
    requires forall i :: 0 <= i < 0x40 ==> b1[i] == b2[i]
    ensures Le32At(b1, 0x08) == Le32At(b2, 0x08)
    ensures Le32At(b1, 0x04) == Le32At(b2, 0x04) && Le32At(b1, 0x18) == Le32At(b2, 0x18)
    ensures Le32At(b1, 0x1C) == Le32At(b2, 0x1C) && Le32At(b1, 0x20) == Le32At(b2, 0x20)
    ensures Le32At(b1, 0x34) == Le32At(b2, 0x34)
    ensures Le32At(b1, 0x0C) == Le32At(b2, 0x0C) && Le32At(b1, 0x10) == Le32At(b2, 0x10)
    ensures Le32At(b1, 0x24) == Le32At(b2, 0x24) && Le16At(b1, 0x28) == Le16At(b2, 0x28)
    ensures b1[0x2A] == b2[0x2A]
    ensures Le32At(b1, 0x2C) == Le32At(b2, 0x2C) && Le32At(b1, 0x30) == Le32At(b2, 0x30)
  {
  }

  /**
   * A file of 0x40 bytes claiming version 1.51: the extended read comes up
   * short, and the YM2203 clock is whatever the buffer held at 0x44.
   */
  lemma StaleBytesReachHeader(file: seq<byte>, s1: seq<byte>, s2: seq<byte>)
    requires file == VGM_MAGIC + [0, 0, 0, 0] + [0x51, 0x01, 0, 0] + Zeros(0x34)
    requires s1 == Zeros(0x100) && s2 == seq(0x100, i => if i == 0x44 then 1 else 0)
    ensures HeaderOf(file, s1).Some? && HeaderOf(file, s2).Some?
    ensures HeaderOf(file, s1).value.ym2203Clock != HeaderOf(file, s2).value.ym2203Clock
  {
    assert file[..4] == VGM_MAGIC;
    assert file[8] == 0x51 && file[9] == 0x01 && file[10] == 0 && file[11] == 0;
    assert Le32At(file, 0x08) == 0x151;
    var b2 := HdrBuf(file, s2, 0x80);
    assert b2[0x44] == 1 && b2[0x45] == 0 && b2[0x46] == 0 && b2[0x47] == 0;
  }

  /** The file padded with zero bytes to at least 0x100. */
  function Padded(file: seq<byte>): (p: seq<byte>)
    ensures |p| >= 0x100 && p[..Min(|file|, |p|)] == file[..Min(|file|, |p|)]
  {
    if |file| >= 0x100 then file else file + Zeros(0x100 - |file|)
  }

  /**
   * `vgm_parse_header` with the header buffer cleared first: a field the file
   * is too short to hold reads as 0.
   */
  function ParsedHeader(file: seq<byte>): (h: Option<Header>)
    ensures h.Some? <==> |file| >= 0x40 && file[..4] == VGM_MAGIC
  {
    HeaderOf(file, Zeros(0x100))
  }

  /**
   * With the buffer cleared, a short file parses exactly as the same file
   * padded with zeros, whatever the buffer would otherwise have held.
   */
  lemma {:induction false} ParsedHeaderIsPadded(file: seq<byte>, stale: seq<byte>)
    requires |stale| == 0x100 && |file| >= 0x40
    ensures ParsedHeader(file) == HeaderOf(Padded(file), stale)
  {
    var p := Padded(file);
    assert p[..0x40] == file[..0x40];
    assert Le32At(p, 0x08) == Le32At(file, 0x08);
    var n := ReadLen(Le32At(file, 0x08));
    assert HdrBuf(file, Zeros(0x100), n) == HdrBuf(p, Zeros(0x100), n);
    HeaderIgnoresStale(p, Zeros(0x100), stale);
  }

  // --------------------------------------------------------------- GD3 tag

  /** The UTF-16LE code unit at `pos`. */
  function Unit(data: seq<byte>, pos: nat): u16
    requires pos + 2 <= |data|
  {
    data[pos] as int + data[pos + 1] as int * 0x100
  }

  /** Characters read from a GD3 string, and the stream position after them. */
  datatype Gd3Read = Gd3Read(str: seq<u16>, next: nat)

  /** The characters `read_gd3_string`'s loop collects from `pos`, and where it stops. */
  function Gd3From(data: seq<byte>, pos: nat, endPos: int, room: nat): Gd3Read
    decreases room
  {
    if pos >= endPos || room == 0 then Gd3Read([], pos)
    else if pos + 2 > |data| then Gd3Read([], After(data, pos, 2))
    else
      var ch := Unit(data, pos);
      if ch == 0 then Gd3Read([], pos + 2)
      else
        var rest := Gd3From(data, pos + 2, endPos, room - 1);
        Gd3Read([ch] + rest.str, rest.next)
  }

  /**
   * The loop collects at most `room` characters, none of them 0, and moves
   * the stream at least two bytes per character.
   */
  lemma {:induction false} Gd3FromBounds(data: seq<byte>, pos: nat, endPos: int, room: nat)
    ensures var r := Gd3From(data, pos, endPos, room);
      |r.str| <= room && r.next >= pos + 2 * |r.str| &&
      forall k :: 0 <= k < |r.str| ==> r.str[k] != 0
    decreases room
  {
    if pos < endPos && room > 0 && pos + 2 <= |data| && Unit(data, pos) != 0 {
      Gd3FromBounds(data, pos + 2, endPos, room - 1);
      var rest := Gd3From(data, pos + 2, endPos, room - 1);
      var r := Gd3From(data, pos, endPos, room);
      assert r.str == [Unit(data, pos)] + rest.str;
      forall k | 0 <= k < |r.str|
        ensures r.str[k] != 0
      {
        if k > 0 {
          assert r.str[k] == rest.str[k - 1];
        }
      }
    }
  }

  /**
   * `read_gd3_string`: UTF-16LE characters up to a 0 character, `endPos`, a
   * failed read or `maxLen - 1` characters; after an empty string the stream
   * is put 2 bytes past where it started.
   */
  function Gd3String(data: seq<byte>, pos: nat, endPos: int, maxLen: nat): Gd3Read
    requires maxLen >= 1
  {
    var got := Gd3From(data, pos, endPos, maxLen - 1);
    Gd3Read(got.str, if |got.str| == 0 then pos + 2 else got.next)
  }

  /**
   * A string holds fewer than `maxLen` characters, none of them the
   * terminator, and every call moves the stream forward by at least 2 bytes.
   */
  lemma Gd3StringBounds(data: seq<byte>, pos: nat, endPos: int, maxLen: nat)
    requires maxLen >= 1
    ensures var r := Gd3String(data, pos, endPos, maxLen);
      |r.str| < maxLen && r.next >= pos + 2 &&
      forall k :: 0 <= k < |r.str| ==> r.str[k] != 0
  {
    Gd3FromBounds(data, pos, endPos, maxLen - 1);
  }

  /** UTF-16LE bytes of a string. */
  function Utf16Le(s: seq<u16>): (b: seq<byte>)
    ensures |b| == 2 * |s|
  {
    if s == [] then [] else [s[0] % 0x100, s[0] / 0x100] + Utf16Le(s[1..])
  }

  /** The code units of `s` at `pos`, followed by a 0 unit. */
  predicate UnitsAt(data: seq<byte>, pos: nat, s: seq<u16>)
  {
    pos + 2 * |s| + 2 <= |data| && Unit(data, pos + 2 * |s|) == 0 &&
    forall k :: 0 <= k < |s| ==> Unit(data, pos + 2 * k) == s[k]
  }

  lemma {:induction false} Gd3FromUnits(data: seq<byte>, pos: nat, s: seq<u16>, endPos: int, room: nat)
    requires UnitsAt(data, pos, s)
    requires forall k :: 0 <= k < |s| ==> s[k] != 0
    requires endPos > pos + 2 * |s| && room > |s|
    ensures Gd3From(data, pos, endPos, room) == Gd3Read(s, pos + 2 * |s| + 2)
    decreases |s|
  {
    if s != [] {
      assert Unit(data, pos + 2 * 0) == s[0];
      assert UnitsAt(data, pos + 2, s[1..]) by {
        forall k | 0 <= k < |s| - 1
          ensures Unit(data, pos + 2 + 2 * k) == s[1..][k]
        {
          assert Unit(data, pos + 2 * (k + 1)) == s[k + 1];
        }
        assert pos + 2 + 2 * |s[1..]| == pos + 2 * |s|;
      }
      Gd3FromUnits(data, pos + 2, s[1..], endPos, room - 1);
      assert [s[0]] + s[1..] == s;
    }
  }

  /** The UTF-16LE encoding of `s` and a terminator, at the start of `data`, puts `s`'s units there. */
  lemma {:induction false} EncodedUnits(s: seq<u16>, rest: seq<byte>)
    ensures UnitsAt(Utf16Le(s) + [0, 0] + rest, 0, s)
    decreases |s|
  {
    var data := Utf16Le(s) + [0, 0] + rest;
    if s == [] {
      assert data[0] == 0 && data[1] == 0;
    } else {
      EncodedUnits(s[1..], rest);
      var tail := Utf16Le(s[1..]) + [0, 0] + rest;
      assert data == [s[0] % 0x100, s[0] / 0x100] + tail;
      forall k | 0 <= k < |s|
        ensures Unit(data, 2 * k) == s[k]
      {
        if k > 0 {
          assert Unit(data, 2 * k) == Unit(tail, 2 * (k - 1));
        }
      }
      assert Unit(data, 2 * |s|) == Unit(tail, 2 * |s[1..]|);
    }
  }

  /** A terminated string of nonzero units at the start of `data` is what `read_gd3_string` returns. */
  lemma Gd3StringOfUnits(data: seq<byte>, s: seq<u16>, endPos: int, maxLen: nat)
    requires UnitsAt(data, 0, s)
    requires forall k :: 0 <= k < |s| ==> s[k] != 0
    requires |s| + 1 < maxLen && endPos > 2 * |s|
    ensures Gd3String(data, 0, endPos, maxLen) == Gd3Read(s, 2 * |s| + 2)
  {
    Gd3FromUnits(data, 0, s, endPos, maxLen - 1);
  }

  /**
   * A zero-terminated UTF-16LE string shorter than the limit, wholly before
   * `endPos`, reads back as itself, the stream left just past its terminator.
   */
  lemma Gd3StringRoundTrip(s: seq<u16>, rest: seq<byte>, endPos: int, maxLen: nat)
    requires forall k :: 0 <= k < |s| ==> s[k] != 0
    requires |s| + 1 < maxLen && endPos > 2 * |s|
    ensures Gd3String(Utf16Le(s) + [0, 0] + rest, 0, endPos, maxLen) == Gd3Read(s, 2 * |s| + 2)
  {
    EncodedUnits(s, rest);
    Gd3StringOfUnits(Utf16Le(s) + [0, 0] + rest, s, endPos, maxLen);
  }

  /** One iteration's worth of `Gd3From`: a further character. */
  lemma Gd3FromStep(data: seq<byte>, pos: nat, endPos: int, room: nat)
    requires pos < endPos && room > 0 && pos + 2 <= |data| && Unit(data, pos) != 0
    ensures Gd3From(data, pos, endPos, room) ==
      Gd3Read([Unit(data, pos)] + Gd3From(data, pos + 2, endPos, room - 1).str,
              Gd3From(data, pos + 2, endPos, room - 1).next)
  {
  }

  method ReadGd3String(fp: Stream, endPos: int, maxLen: nat) returns (s: seq<u16>)
    requires maxLen >= 1
    modifies fp
    ensures Gd3Read(s, fp.pos) == Gd3String(fp.data, old(fp.pos), endPos, maxLen)
  {
    var initial := fp.pos;
    ghost var whole := Gd3From(fp.data, initial, endPos, maxLen - 1);
    s := [];
    var done := false;
    assert s + whole.str == whole.str;
    while !done && fp.pos < endPos && |s| < maxLen - 1
      invariant initial <= fp.pos && |s| <= maxLen - 1
      invariant done ==> whole == Gd3Read(s, fp.pos)
      invariant !done ==> (whole ==
        Gd3Read(s + Gd3From(fp.data, fp.pos, endPos, maxLen - 1 - |s|).str,
                Gd3From(fp.data, fp.pos, endPos, maxLen - 1 - |s|).next))
      decreases !done, maxLen - |s|
    {
      ghost var p := fp.pos;
      ghost var room := maxLen - 1 - |s|;
      var b := fp.Read(2);
      if |b| != 2 {
        assert p + 2 > |fp.data|;
        assert Gd3From(fp.data, p, endPos, room) == Gd3Read([], fp.pos);
        assert s + [] == s;
        done := true;
      } else {
        assert b == fp.data[p..p + 2];
        var ch := Unit(b, 0);
        assert ch == Unit(fp.data, p);
        if ch == 0 {
          assert Gd3From(fp.data, p, endPos, room) == Gd3Read([], fp.pos);
          assert s + [] == s;
          done := true;
        } else {
          Gd3FromStep(fp.data, p, endPos, room);
          ghost var tail := Gd3From(fp.data, fp.pos, endPos, room - 1);
          assert s + ([ch] + tail.str) == (s + [ch]) + tail.str;
          s := s + [ch];
        }
      }
    }
    if !done {
      assert Gd3From(fp.data, fp.pos, endPos, maxLen - 1 - |s|) == Gd3Read([], fp.pos);
      assert s + [] == s;
    }
    if |s| == 0 {
      fp.Seek(initial + 2);
    }
  }

  /** Eleven empty strings: the GD3 part of a cleared header. */
  function NoTags(): (t: seq<seq<u16>>)
    ensures |t| == 11 && forall k :: 0 <= k < 11 ==> t[k] == []
  {
    seq(11, k => [])
  }

  /** The eleven GD3 strings from `pos`, each read by `read_gd3_string` with room for 255. */
  function TagsFrom(data: seq<byte>, pos: nat, endPos: int, n: nat): (t: seq<seq<u16>>)
    ensures |t| == n
    decreases n
  {
    if n == 0 then []
    else
      var r := Gd3String(data, pos, endPos, 256);
      [r.str] + TagsFrom(data, r.next, endPos, n - 1)
  }

  /**
   * The GD3 block at `gd3Offset`: "Gd3 ", a version and a length, then the
   * strings, read up to the block's end. A missing or unsigned block leaves
   * every string empty. A length cut short by the end of the file is taken as
   * 0: the stream is then at the end, so every string reads empty either way.
   */
  function Gd3Tags(data: seq<byte>, gd3Offset: u32): (t: seq<seq<u16>>)
    ensures |t| == 11
  {
    if !Gd3Signed(data, gd3Offset) then NoTags()
    else TagsFrom(data, Gd3Start(data, gd3Offset), Gd3End(data, gd3Offset), 11)
  }

  /** Where the strings start: past the signature, the version and the length. */
  function Gd3Start(data: seq<byte>, gd3Offset: u32): nat
  {
    After(data, After(data, gd3Offset + 4, 4), 4)
  }

  /** Where the block's length field says the strings end. */
  function Gd3End(data: seq<byte>, gd3Offset: u32): int
  {
    Gd3Start(data, gd3Offset) + Gd3Length(data, After(data, gd3Offset + 4, 4))
  }

  /** The block length field at `p2`, or 0 when the file ends before it. */
  function Gd3Length(data: seq<byte>, p2: nat): u32
  {
    if p2 + 4 <= |data| then Le32At(data, p2) else 0
  }

  /** The eleven strings from the stream position, each with room for 255 characters. */
  method ReadGd3Strings(fp: Stream, endPos: int) returns (tags: seq<seq<u16>>)
    modifies fp
    ensures tags == TagsFrom(fp.data, old(fp.pos), endPos, 11)
  {
    ghost var start := fp.pos;
    tags := [];
    var k := 0;
    assert tags + TagsFrom(fp.data, fp.pos, endPos, 11) == TagsFrom(fp.data, fp.pos, endPos, 11);
    while k < 11
      invariant 0 <= k <= 11 && |tags| == k
      invariant TagsFrom(fp.data, start, endPos, 11) == tags + TagsFrom(fp.data, fp.pos, endPos, 11 - k)
    {
      ghost var p := fp.pos;
      var s := ReadGd3String(fp, endPos, 256);
      assert TagsFrom(fp.data, p, endPos, 11 - k) == [s] + TagsFrom(fp.data, fp.pos, endPos, 11 - k - 1);
      assert tags + ([s] + TagsFrom(fp.data, fp.pos, endPos, 11 - k - 1)) ==
        (tags + [s]) + TagsFrom(fp.data, fp.pos, endPos, 11 - k - 1);
      tags := tags + [s];
      k := k + 1;
    }
    assert tags + [] == tags;
  }

  /** Whether a GD3 block with its signature starts at `gd3Offset`. */
  predicate Gd3Signed(data: seq<byte>, gd3Offset: u32)
  {
    gd3Offset != 0 && gd3Offset + 4 <= |data| && data[gd3Offset..gd3Offset + 4] == GD3_MAGIC
  }

  /**
   * The first part of the GD3 read: seek, check the signature, skip the
   * version, read the length. When signed, the stream is at the first string
   * and `endPos` is where the block's length says it ends.
   */
  method ReadGd3Prefix(fp: Stream, gd3Offset: u32) returns (signed: bool, endPos: int)
    modifies fp
    ensures signed == Gd3Signed(fp.data, gd3Offset)
    ensures signed ==> fp.pos == Gd3Start(fp.data, gd3Offset) && endPos == Gd3End(fp.data, gd3Offset)
  {
    if gd3Offset == 0 {
      return false, 0;
    }
    fp.Seek(gd3Offset);
    var sig := fp.Read(4);
    if sig != GD3_MAGIC {
      assert gd3Offset + 4 <= |fp.data| ==> sig == fp.data[gd3Offset..gd3Offset + 4];
      return false, 0;
    }
    assert gd3Offset + 4 <= |fp.data| && sig == fp.data[gd3Offset..gd3Offset + 4];
    var version := fp.Read(4);
    ghost var p2 := fp.pos;
    var lengthBytes := fp.Read(4);
    var length := if |lengthBytes| == 4 then Le32At(lengthBytes, 0) else 0;
    assert |lengthBytes| == 4 ==> lengthBytes == fp.data[p2..p2 + 4];
    return true, fp.pos + length;
  }

  /** `vgm_parse_header`'s GD3 part: seek to the block, check its signature, read the strings. */
  method ReadGd3Block(fp: Stream, gd3Offset: u32) returns (tags: seq<seq<u16>>)
    modifies fp
    ensures tags == Gd3Tags(fp.data, gd3Offset)
  {
    var signed, endPos := ReadGd3Prefix(fp, gd3Offset);
    if !signed {
      return NoTags();
    }
    tags := ReadGd3Strings(fp, endPos);
  }

  /** The GD3 offset a file's header names (relative field at 0x14). */
  function Gd3OffsetOf(file: seq<byte>): u32
    requires |file| >= 0x40
  {
    ReadRelOfs(file, 0x14)
  }

  /**
   * The reads into the cleared header buffer: 0x40 bytes, the magic check,
   * then the rest of what the version asks for. On success the buffer holds
   * the file's first `ReadLen(version)` bytes, zeros beyond.
   */
  method ReadHeaderBuffer(fp: Stream) returns (ok: bool, buf: seq<byte>)
    modifies fp
    ensures ok == (|fp.data| >= 0x40 && fp.data[..4] == VGM_MAGIC)
    ensures ok ==> buf == HdrBuf(fp.data, Zeros(0x100), ReadLen(Le32At(fp.data, 0x08)))
  {
    fp.Seek(0);
    var first := fp.Read(0x40);
    if |first| != 0x40 || first[..4] != VGM_MAGIC {
      return false, [];
    }
    assert first == fp.data[..0x40];
    var n := ReadLen(Le32At(first, 0x08));
    var ext := fp.Read(n - 0x40);
    assert |fp.data| > 0x40 ==> ext == fp.data[0x40..Min(n, |fp.data|)];
    assert |fp.data| == 0x40 ==> ext == [];
    buf := seq(0x100, i requires 0 <= i < 0x100 =>
      if i < 0x40 then first[i] else if i - 0x40 < |ext| then ext[i - 0x40] else 0);
    forall i | 0 <= i < 0x100
      ensures buf[i] == HdrBuf(fp.data, Zeros(0x100), n)[i]
    {
    }
    assert Le32At(first, 0x08) == Le32At(fp.data, 0x08);
    return true, buf;
  }

  /**
   * `vgm_parse_header` on a stream, with the header buffer cleared: the
   * header, the GD3 strings, and the stream left at the data offset.
   */
  method ParseHeader(fp: Stream) returns (ok: bool, h: Header, tags: seq<seq<u16>>)
    modifies fp
    ensures ok == ParsedHeader(fp.data).Some?
    ensures ok ==> h == ParsedHeader(fp.data).value && fp.pos == h.dataOffset
    ensures ok ==> tags == Gd3Tags(fp.data, Gd3OffsetOf(fp.data))
    ensures !ok ==> h == EMPTY
  {
    var buf;
    ok, buf := ReadHeaderBuffer(fp);
    if !ok {
      return false, EMPTY, NoTags();
    }
    h := FieldsOf(buf);
    WordAgrees(buf, fp.data, 0x14);
    RelOfsAgree(buf, fp.data, 0x14);
    var gd3Offset := ReadRelOfs(buf, 0x14);
    tags := ReadGd3Block(fp, gd3Offset);
    fp.Seek(h.dataOffset);
  }

  // ------------------------------------------------------------ primary chip

  /**
   * `get_primary_chip_from_header`: the first chip with a clock, in the order
   * YM2608, YM2612, YM2203, YM2151, AY8910, SN76489, YM2413.
   */
  function PrimaryChip(h: Header): (c: Chip)
    ensures c == NoChip <==>
      (h.ym2608Clock == 0 && h.ym2612Clock == 0 && h.ym2203Clock == 0 && h.ym2151Clock == 0 &&
       h.ay8910Clock == 0 && h.sn76489Clock == 0 && h.ym2413Clock == 0)
  {
    if h.ym2608Clock > 0 then YM2608
    else if h.ym2612Clock > 0 then YM2612
    else if h.ym2203Clock > 0 then YM2203
    else if h.ym2151Clock > 0 then YM2151
    else if h.ay8910Clock > 0 then AY8910
    else if h.sn76489Clock > 0 then SN76489
    else if h.ym2413Clock > 0 then YM2413
    else NoChip
  }

  /** `get_clock_from_header`: the clock field of a chip, 0 for chips it has none for. */
  function ClockOf(h: Header, c: Chip): (clock: u32)
    ensures c !in {YM2608, YM2612, YM2203, YM2151, AY8910, SN76489, YM2413} ==> clock == 0
  {
    match c
    case YM2608 => h.ym2608Clock
    case YM2612 => h.ym2612Clock
    case YM2203 => h.ym2203Clock
    case YM2151 => h.ym2151Clock
    case AY8910 => h.ay8910Clock
    case SN76489 => h.sn76489Clock
    case YM2413 => h.ym2413Clock
    case _ => 0
  }

  /**
   * The primary chip always has a nonzero clock, and no chip earlier in the
   * order has one.
   */
  lemma PrimaryChipHasClock(h: Header)
    ensures var c := PrimaryChip(h);
      (c != NoChip ==> ClockOf(h, c) > 0) &&
      (c == YM2612 ==> h.ym2608Clock == 0) &&
      (c == YM2203 ==> h.ym2608Clock == 0 && h.ym2612Clock == 0) &&
      (c == YM2151 ==> h.ym2608Clock == 0 && h.ym2612Clock == 0 && h.ym2203Clock == 0)
  {
  }



}
