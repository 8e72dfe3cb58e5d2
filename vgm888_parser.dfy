// The stand-alone header reader of v0.888/vgm_parser.c: `parse_vgm_header`
// fills the whole VGM 1.71 header, each field under the version that
// introduced it, from a buffer holding as much of the file as the version
// needs. The header buffer is a local array the function never clears.

module V0888VgmParser {
  import opened Bytes
  import V0903VgmHeader

  /** The header fields `parse_vgm_header` reads with `read_le32`, `read_le16` or a plain byte. */
  datatype Field =
    | EofOffset | Sn76489Clock | Ym2413Clock | TotalSamples | LoopSamples
    | Rate
    | Sn76489Feedback | Sn76489ShiftWidth | Ym2612Clock | Ym2151Clock
    | Sn76489Flags | SegaPcmClock | SpcmInterface | Rf5c68Clock | Ym2203Clock
    | Ym2608Clock | Ym2610Clock | Ym3812Clock | Ym3526Clock | Y8950Clock
    | Ymf262Clock | Ymf278bClock | Ymf271Clock | Ymz280bClock | Rf5c164Clock
    | PwmClock | Ay8910Clock | Ay8910ChipType | Ay8910Flags | Ym2203Ay8910Flags
    | Ym2608Ay8910Flags | LoopModifier
    | VolumeModifier | LoopBase
    | GbDmgClock | NesApuClock | MultipcmClock | Upd7759Clock | Okim6258Clock
    | Okim6258Flags | K054539Flags | C140ChipType | Okim6295Clock | K051649Clock
    | K054539Clock | Huc6280Clock | C140Clock | K053260Clock | PokeyClock
    | QsoundClock
    | ScspClock | WonderswanClock | VsuClock | Saa1099Clock | Es5503Clock
    | Es5506Clock | Es5503Channels | Es5506Channels | C352ClockDivider | X1010Clock
    | C352Clock | Ga20Clock

  /** How a field is stored: one byte, `read_le16` or `read_le32`. */
  datatype Width = OneByte | Le16Word | Le32Word

  function Size(w: Width): (n: nat)
    ensures n == 1 || n == 2 || n == 4
  {
    match w
    case OneByte => 1
    case Le16Word => 2
    case Le32Word => 4
  }

  /** Where a field lies in the header, how wide it is, and the first version that reads it. */
  datatype Slot = Slot(at: nat, width: Width, since: u32)

  /** The end of a field: one past its last byte. */
  function End(s: Slot): nat
  {
    s.at + Size(s.width)
  }

  /** The offset, width and version gate of each field, as `parse_vgm_header` reads it. */
  function SlotOf(f: Field): (s: Slot)
    ensures End(s) <= V0903VgmHeader.ReadLen(s.since) <= 0xE4
  {
    match f
    case EofOffset => Slot(0x04, Le32Word, 0)
    case TotalSamples => Slot(0x18, Le32Word, 0)
    case LoopSamples => Slot(0x20, Le32Word, 0)
    case Sn76489Clock => Slot(0x0C, Le32Word, 0)
    case Ym2413Clock => Slot(0x10, Le32Word, 0)
    case Rate => Slot(0x24, Le32Word, 0x101)
    case Sn76489Feedback => Slot(0x28, Le16Word, 0x110)
    case Sn76489ShiftWidth => Slot(0x2A, OneByte, 0x110)
    case Ym2612Clock => Slot(0x2C, Le32Word, 0x110)
    case Ym2151Clock => Slot(0x30, Le32Word, 0x110)
    case Sn76489Flags => Slot(0x2B, OneByte, 0x151)
    case SegaPcmClock => Slot(0x38, Le32Word, 0x151)
    case SpcmInterface => Slot(0x3C, Le32Word, 0x151)
    case Rf5c68Clock => Slot(0x40, Le32Word, 0x151)
    case Ym2203Clock => Slot(0x44, Le32Word, 0x151)
    case Ym2608Clock => Slot(0x48, Le32Word, 0x151)
    case Ym2610Clock => Slot(0x4C, Le32Word, 0x151)
    case Ym3812Clock => Slot(0x50, Le32Word, 0x151)
    case Ym3526Clock => Slot(0x54, Le32Word, 0x151)
    case Y8950Clock => Slot(0x58, Le32Word, 0x151)
    case Ymf262Clock => Slot(0x5C, Le32Word, 0x151)
    case Ymf278bClock => Slot(0x60, Le32Word, 0x151)
    case Ymf271Clock => Slot(0x64, Le32Word, 0x151)
    case Ymz280bClock => Slot(0x68, Le32Word, 0x151)
    case Rf5c164Clock => Slot(0x6C, Le32Word, 0x151)
    case PwmClock => Slot(0x70, Le32Word, 0x151)
    case Ay8910Clock => Slot(0x74, Le32Word, 0x151)
    case Ay8910ChipType => Slot(0x78, OneByte, 0x151)
    case Ay8910Flags => Slot(0x79, OneByte, 0x151)
    case Ym2203Ay8910Flags => Slot(0x7A, OneByte, 0x151)
    case Ym2608Ay8910Flags => Slot(0x7B, OneByte, 0x151)
    case LoopModifier => Slot(0x7F, OneByte, 0x151)
    case VolumeModifier => Slot(0x7C, OneByte, 0x160)
    case LoopBase => Slot(0x7E, OneByte, 0x160)
    case GbDmgClock => Slot(0x80, Le32Word, 0x161)
    case NesApuClock => Slot(0x84, Le32Word, 0x161)
    case MultipcmClock => Slot(0x88, Le32Word, 0x161)
    case Upd7759Clock => Slot(0x8C, Le32Word, 0x161)
    case Okim6258Clock => Slot(0x90, Le32Word, 0x161)
    case Okim6258Flags => Slot(0x94, OneByte, 0x161)
    case K054539Flags => Slot(0x95, OneByte, 0x161)
    case C140ChipType => Slot(0x96, OneByte, 0x161)
    case Okim6295Clock => Slot(0x98, Le32Word, 0x161)
    case K051649Clock => Slot(0x9C, Le32Word, 0x161)
    case K054539Clock => Slot(0xA0, Le32Word, 0x161)
    case Huc6280Clock => Slot(0xA4, Le32Word, 0x161)
    case C140Clock => Slot(0xA8, Le32Word, 0x161)
    case K053260Clock => Slot(0xAC, Le32Word, 0x161)
    case PokeyClock => Slot(0xB0, Le32Word, 0x161)
    case QsoundClock => Slot(0xB4, Le32Word, 0x161)
    case ScspClock => Slot(0xB8, Le32Word, 0x171)
    case WonderswanClock => Slot(0xC0, Le32Word, 0x171)
    case VsuClock => Slot(0xC4, Le32Word, 0x171)
    case Saa1099Clock => Slot(0xC8, Le32Word, 0x171)
    case Es5503Clock => Slot(0xCC, Le32Word, 0x171)
    case Es5506Clock => Slot(0xD0, Le32Word, 0x171)
    case Es5503Channels => Slot(0xD4, OneByte, 0x171)
    case Es5506Channels => Slot(0xD5, OneByte, 0x171)
    case C352ClockDivider => Slot(0xD6, OneByte, 0x171)
    case X1010Clock => Slot(0xD8, Le32Word, 0x171)
    case C352Clock => Slot(0xDC, Le32Word, 0x171)
    case Ga20Clock => Slot(0xE0, Le32Word, 0x171)
  }

  /** The value stored in a slot of `b`. */
  function ReadSlot(b: seq<byte>, s: Slot): u32
    requires End(s) <= |b|
  {
    match s.width
    case OneByte => b[s.at]
    case Le16Word => Le16At(b, s.at)
    case Le32Word => Le32At(b, s.at)
  }

  /**
   * `read_le32` and `read_le16`: the bytes of a slot are the base-256 digits
   * of its value, least significant first, and the value fits the slot.
   */
  lemma SlotDigits(b: seq<byte>, s: Slot)
    requires End(s) <= |b|
    ensures var r := ReadSlot(b, s);
      r % 0x100 == b[s.at] &&
      (s.width == OneByte ==> r < 0x100) &&
      (s.width == Le16Word ==> r < 0x1_0000 && r / 0x100 == b[s.at + 1]) &&
      (s.width == Le32Word ==>
        r / 0x100 % 0x100 == b[s.at + 1] && r / 0x1_0000 % 0x100 == b[s.at + 2] &&
        r / 0x100_0000 == b[s.at + 3])
  {
    match s.width
    case OneByte =>
    case Le16Word =>
      var r := Le16(b[s.at], b[s.at + 1]);
      assert r % 0x100 == b[s.at] && r / 0x100 == b[s.at + 1];
    case Le32Word =>
      Le32Digits(b[s.at], b[s.at + 1], b[s.at + 2], b[s.at + 3]);
  }

  /** Whether a file of version `version` has field `f` read. */
  predicate Reads(version: u32, f: Field)
  {
    version >= SlotOf(f).since
  }

  /** Field `f` of a filled header buffer, or 0 when the version predates it. */
  function FieldValue(b: seq<byte>, f: Field, version: u32): u32
    requires |b| == 0x100
  {
    if Reads(version, f) then ReadSlot(b, SlotOf(f)) else 0
  }

  /** Where the relative extra-header offset of version 1.70 lies. */
  const EXTRA_HEADER_AT: nat := 0xBC

  /** What `parse_vgm_header` leaves in the header. */
  datatype Header = Header(
    ident: seq<byte>,
    version: u32,
    loopOffset: u32,
    dataOffset: u32,
    extraHeaderOffset: u32,
    fields: map<Field, u32>)

  /** The header after `memset(header, 0, ...)`, as a failed parse leaves it. */
  const EMPTY: Header := Header([0, 0, 0, 0], 0, 0, 0, 0, map f: Field :: Cleared(f))

  /** What `memset` leaves in a field. */
  function Cleared(f: Field): u32
  {
    0
  }

  /**
   * The header read out of a filled buffer: the magic, the version, the
   * relative loop, data and extra-header offsets, and every field under its
   * version gate. `gd3_offset` and the reserved bytes are never read and stay 0.
   */
  function FieldsOf(b: seq<byte>): (h: Header)
    requires |b| == 0x100
  {
    var version := Le32At(b, 0x08);
    Header(
      b[..4],
      version,
      V0903VgmHeader.ReadRelOfs(b, 0x1C),
      V0903VgmHeader.DataOffsetOf(b, version),
      if version >= 0x170 then V0903VgmHeader.ReadRelOfs(b, EXTRA_HEADER_AT) else 0,
      map f: Field :: FieldValue(b, f, version))
  }

  /**
   * `parse_vgm_header`: `None` when the first 0x40 bytes cannot be read or
   * they do not start with "Vgm "; otherwise the header of a buffer holding
   * the first `ReadLen(version)` bytes of the file (fewer when the file is
   * shorter: the short read only warns) and its earlier contents `stale`
   * beyond them.
   */
  function HeaderOf(file: seq<byte>, stale: seq<byte>): (h: Option<Header>)
    requires |stale| == 0x100
    ensures h.Some? <==> |file| >= 0x40 && file[..4] == V0903VgmHeader.VGM_MAGIC
    ensures h.Some? ==> h.value.ident == V0903VgmHeader.VGM_MAGIC && h.value.version == Le32At(file, 0x08)
    ensures h.Some? ==> forall f :: f in h.value.fields
    ensures h.Some? ==> forall f :: !Reads(h.value.version, f) ==> h.value.fields[f] == 0
    ensures h.Some? ==> h.value.dataOffset != 0
    ensures h.Some? && (h.value.version < 0x150 || Le32At(file, 0x34) == 0) ==> h.value.dataOffset == 0x40
    ensures h.Some? && (h.value.version < 0x170 || (|file| >= 0xC0 && Le32At(file, 0xBC) == 0)) ==>
      h.value.extraHeaderOffset == 0
  {
    if |file| < 0x40 || file[..4] != V0903VgmHeader.VGM_MAGIC then None
    else
      var b := V0903VgmHeader.HdrBuf(file, stale, V0903VgmHeader.ReadLen(Le32At(file, 0x08)));
      assert b[..4] == file[..4];
      assert b[0x08..0x0C] == file[0x08..0x0C];
      assert Le32At(b, 0x34) == Le32At(file, 0x34);
      assert |file| >= 0xC0 && Le32At(b, 0x08) >= 0x170 ==> Le32At(b, 0xBC) == Le32At(file, 0xBC);
      Some(FieldsOf(b))
  }

  // --------------------------------------------------- fields and read lengths

  /** A later version reads at least as much of the header. */
  lemma ReadLenMonotone(v1: u32, v2: u32)
    requires v1 <= v2
    ensures V0903VgmHeader.ReadLen(v1) <= V0903VgmHeader.ReadLen(v2)
  {
  }

  /**
   * Every field lies inside what the version that introduced it reads, and
   * so inside what every later version reads.
   */
  lemma FieldInsideReadLength(f: Field, version: u32)
    requires Reads(version, f)
    ensures End(SlotOf(f)) <= V0903VgmHeader.ReadLen(version)
  {
    ReadLenMonotone(SlotOf(f).since, version);
  }

  /**
   * The read length is exactly what the version reads: from version 1.51 on,
   * the last byte read is the last byte of a field of that version, or, for
   * version 1.70, of its relative extra-header offset.
   */
  lemma ReadLenIsLastField(version: u32)
    requires version >= 0x151
    ensures version == 0x170 ==> V0903VgmHeader.ReadLen(version) == EXTRA_HEADER_AT + 4
    ensures version != 0x170 ==>
      exists f :: Reads(version, f) && End(SlotOf(f)) == V0903VgmHeader.ReadLen(version)
  {
    if version >= 0x171 {
      assert End(SlotOf(Ga20Clock)) == 0xE4;
    } else if version >= 0x161 && version != 0x170 {
      assert End(SlotOf(QsoundClock)) == 0xB8;
    } else if version < 0x161 {
      assert End(SlotOf(LoopModifier)) == 0x80;
    }
  }

  /** Slots whose bytes agree hold the same value. */
  lemma SlotAgrees(b1: seq<byte>, b2: seq<byte>, s: Slot)
    requires End(s) <= |b1| && End(s) <= |b2|
    requires forall i :: s.at <= i < End(s) ==> b1[i] == b2[i]
    ensures ReadSlot(b1, s) == ReadSlot(b2, s)
  {
    assert b1[s.at] == b2[s.at];
    if s.width != OneByte {
      assert b1[s.at + 1] == b2[s.at + 1];
    }
    if s.width == Le32Word {
      assert b1[s.at + 2] == b2[s.at + 2] && b1[s.at + 3] == b2[s.at + 3];
    }
  }

  /**
   * Once the file holds what its version reads, every field the version
   * reads is the file's own value at the field's offset, and the loop and
   * extra-header offsets are the file's relative fields resolved.
   */
  lemma {:induction false} FieldsFromFile(file: seq<byte>, stale: seq<byte>)
    requires |stale| == 0x100 && HeaderOf(file, stale).Some?
    requires |file| >= V0903VgmHeader.ReadLen(Le32At(file, 0x08))
    ensures var h := HeaderOf(file, stale).value;
      forall f :: Reads(h.version, f) ==>
        End(SlotOf(f)) <= |file| && h.fields[f] == ReadSlot(file, SlotOf(f))
    ensures var h := HeaderOf(file, stale).value;
      h.loopOffset == V0903VgmHeader.ReadRelOfs(file, 0x1C) &&
      (h.version >= 0x170 ==>
        (End(Slot(EXTRA_HEADER_AT, Le32Word, 0x170)) <= |file| &&
         h.extraHeaderOffset == V0903VgmHeader.ReadRelOfs(file, EXTRA_HEADER_AT)))
  {
    var version := Le32At(file, 0x08);
    var n := V0903VgmHeader.ReadLen(version);
    var b := V0903VgmHeader.HdrBuf(file, stale, n);
    var h := HeaderOf(file, stale).value;
    assert h == FieldsOf(b);
    forall f | Reads(version, f)
      ensures End(SlotOf(f)) <= |file| && h.fields[f] == ReadSlot(file, SlotOf(f))
    {
      FieldInsideReadLength(f, version);
      SlotAgrees(b, file, SlotOf(f));
    }
    SlotAgrees(b, file, Slot(0x1C, Le32Word, 0));
    if version >= 0x170 {
      SlotAgrees(b, file, Slot(EXTRA_HEADER_AT, Le32Word, 0x170));
    }
  }

  /**
   * Every field a version reads lies inside what it reads from the file, so
   * a file holding that much gives the same header whatever the buffer held.
   */
  lemma {:induction false} HeaderIgnoresStale(file: seq<byte>, s1: seq<byte>, s2: seq<byte>)
    requires |s1| == 0x100 && |s2| == 0x100
    requires |file| >= 0x40 && |file| >= V0903VgmHeader.ReadLen(Le32At(file, 0x08))
    ensures HeaderOf(file, s1) == HeaderOf(file, s2)
  {
    if HeaderOf(file, s1).Some? {
      var version := Le32At(file, 0x08);
      var n := V0903VgmHeader.ReadLen(version);
      var b1 := V0903VgmHeader.HdrBuf(file, s1, n);
      var b2 := V0903VgmHeader.HdrBuf(file, s2, n);
      var h1 := HeaderOf(file, s1).value;
      var h2 := HeaderOf(file, s2).value;
      FieldsFromFile(file, s1);
      FieldsFromFile(file, s2);
      assert h1.fields == h2.fields;
      SlotAgrees(b1, b2, Slot(0x34, Le32Word, 0));
      assert h1.dataOffset == h2.dataOffset;
      assert h1.ident == h2.ident;
    }
  }

  /**
   * As written: a file of exactly 0x40 bytes claiming version 1.51 or later
   * only warns that the extended read came up short, and its YM2203 clock is
   * whatever the buffer held at 0x44.
   */
  lemma StaleBytesReachHeader(file: seq<byte>, stale: seq<byte>)
    requires |stale| == 0x100 && |file| == 0x40 && file[..4] == V0903VgmHeader.VGM_MAGIC
    requires Le32At(file, 0x08) >= 0x151
    ensures HeaderOf(file, stale).Some?
    ensures HeaderOf(file, stale).value.fields[Ym2203Clock] == Le32At(stale, 0x44)
  {
    var b := V0903VgmHeader.HdrBuf(file, stale, V0903VgmHeader.ReadLen(Le32At(file, 0x08)));
    HeaderOfBuffer(file, stale);
    SlotAgrees(b, stale, SlotOf(Ym2203Clock));
  }

  /** A header that parses is the one its filled buffer holds. */
  lemma HeaderOfBuffer(file: seq<byte>, stale: seq<byte>)
    requires |stale| == 0x100 && |file| >= 0x40 && file[..4] == V0903VgmHeader.VGM_MAGIC
    ensures HeaderOf(file, stale) ==
      Some(FieldsOf(V0903VgmHeader.HdrBuf(file, stale, V0903VgmHeader.ReadLen(Le32At(file, 0x08)))))
  {
  }

  /**
   * The fields the v0.903 player also reads come out the same from both
   * readers: the stand-alone reader is a superset of the player's.
   */
  lemma AgreesWithPlayer(file: seq<byte>, stale: seq<byte>)
    requires |stale| == 0x100 && HeaderOf(file, stale).Some?
    ensures V0903VgmHeader.HeaderOf(file, stale).Some?
    ensures Shared(HeaderOf(file, stale).value, V0903VgmHeader.HeaderOf(file, stale).value)
  {
    var b := V0903VgmHeader.HdrBuf(file, stale, V0903VgmHeader.ReadLen(Le32At(file, 0x08)));
    HeaderOfBuffer(file, stale);
    assert V0903VgmHeader.HeaderOf(file, stale) == Some(V0903VgmHeader.FieldsOf(b));
    BufferAgreesWithPlayer(b);
  }

  /** The v0.903 player's header fields, each equal to the same field here. */
  predicate Shared(h: Header, p: V0903VgmHeader.Header)
    requires forall f :: f in h.fields
  {
    h.version == p.version && h.loopOffset == p.loopOffset && h.dataOffset == p.dataOffset &&
    h.fields[EofOffset] == p.eofOffset && h.fields[TotalSamples] == p.totalSamples &&
    h.fields[LoopSamples] == p.loopSamples && h.fields[Sn76489Clock] == p.sn76489Clock &&
    h.fields[Ym2413Clock] == p.ym2413Clock && h.fields[Rate] == p.rate &&
    h.fields[Sn76489Feedback] == p.sn76489Feedback &&
    h.fields[Sn76489ShiftWidth] == p.sn76489ShiftWidth &&
    h.fields[Ym2612Clock] == p.ym2612Clock && h.fields[Ym2151Clock] == p.ym2151Clock &&
    h.fields[Ym2203Clock] == p.ym2203Clock && h.fields[Ym2608Clock] == p.ym2608Clock &&
    h.fields[Ay8910Clock] == p.ay8910Clock
  }

  lemma BufferAgreesWithPlayer(b: seq<byte>)
    requires |b| == 0x100
    ensures Shared(FieldsOf(b), V0903VgmHeader.FieldsOf(b))
  {
    hide Le32At, Le16At, V0903VgmHeader.DataOffsetOf, V0903VgmHeader.ReadRelOfs;
    FieldOf(b, EofOffset);
    FieldOf(b, TotalSamples);
    FieldOf(b, LoopSamples);
    FieldOf(b, Sn76489Clock);
    FieldOf(b, Ym2413Clock);
    FieldOf(b, Rate);
    FieldOf(b, Sn76489Feedback);
    FieldOf(b, Sn76489ShiftWidth);
    FieldOf(b, Ym2612Clock);
    FieldOf(b, Ym2151Clock);
    FieldOf(b, Ym2203Clock);
    FieldOf(b, Ym2608Clock);
    FieldOf(b, Ay8910Clock);
  }

  /** One field of `FieldsOf`. */
  lemma FieldOf(b: seq<byte>, f: Field)
    requires |b| == 0x100
    ensures f in FieldsOf(b).fields && FieldsOf(b).fields[f] == FieldValue(b, f, Le32At(b, 0x08))
  {
  }

  // ---------------------------------------------------------------- reading

  /**
   * `parse_vgm_header` on a stream, its header buffer holding `stale` before
   * the reads: the first 0x40 bytes, the magic check, then the rest of what
   * the version asks for, a short read there only warning.
   */
  method ParseVgmHeader(fp: Stream, stale: seq<byte>) returns (ok: bool, h: Header)
    requires |stale| == 0x100
    modifies fp
    ensures ok == HeaderOf(fp.data, stale).Some?
    ensures ok ==> h == HeaderOf(fp.data, stale).value
    ensures !ok ==> h == EMPTY
  {
    fp.Seek(0);
    var first := fp.Read(0x40);
    if |first| != 0x40 {
      return false, EMPTY;
    }
    assert first == fp.data[..0x40];
    if first[..4] != V0903VgmHeader.VGM_MAGIC {
      return false, EMPTY;
    }
    var version := Le32At(first, 0x08);
    var n := V0903VgmHeader.ReadLen(version);
    var ext := fp.Read(n - 0x40);
    assert |fp.data| > 0x40 ==> ext == fp.data[0x40..Min(n, |fp.data|)];
    assert |fp.data| == 0x40 ==> ext == [];
    var buf := seq(0x100, i requires 0 <= i < 0x100 =>
      if i < 0x40 then first[i] else if i - 0x40 < |ext| then ext[i - 0x40] else stale[i]);
    assert buf == V0903VgmHeader.HdrBuf(fp.data, stale, n);
    h := FieldsOf(buf);
    return true, h;
  }
}
