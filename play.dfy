// The file-level logic of `play.c` in v0.83, v0.84, v0.86 and v0.911
// (console_player): the file type taken from the extension, the base name,
// the cache file name, the S98 length scan, the total-time display and the
// `play_file` dispatch. The four versions share `get_filetype` and the
// base-name rule word for word; where they differ each version has its own
// member.

module Play {
  import opened Bytes
  import opened CText

  // ----------------------------------------------------------- file names

  datatype FileType = S98 | Vgm | Unknown

  /** `get_filetype`: the text from the last '.' names the type, compared without case. */
  function FileTypeOf(name: string): (t: FileType)
  {
    match LastIndex(name, '.')
    case None => Unknown
    case Some(i) => ExtensionType(name[i..])
  }

  /** The extension decides, whatever the stem holds (dots included) and however it is capitalised. */
  lemma FileTypeOfExtension(stem: string, ext: string)
    requires |ext| == 4 && ext[0] == '.' && '.' !in ext[1..]
    ensures LowerAll(ext) == ".vgm" ==> FileTypeOf(stem + ext) == Vgm
    ensures LowerAll(ext) == ".s98" ==> FileTypeOf(stem + ext) == S98
    ensures LowerAll(ext) != ".vgm" && LowerAll(ext) != ".s98" ==> FileTypeOf(stem + ext) == Unknown
  {
    var s := stem + ext;
    assert s[|stem|..] == ext && s[|stem| + 1..] == ext[1..];
    LastIndexAt(s, '.', |stem|);
    assert FileTypeOf(s) == ExtensionType(ext);
    ExtensionTypeLowered(ext);
  }

  /** The type `get_filetype` gives an extension, the '.' included. */
  function ExtensionType(ext: string): FileType
  {
    if CaseCompare(ext, ".vgm") == 0 then Vgm
    else if CaseCompare(ext, ".s98") == 0 then S98
    else Unknown
  }

  lemma ExtensionTypeLowered(ext: string)
    ensures ExtensionType(ext) == Vgm <==> LowerAll(ext) == ".vgm"
    ensures ExtensionType(ext) == S98 <==> LowerAll(ext) == ".s98"
  {
    CaseCompareZeroIff(ext, ".vgm");
    CaseCompareZeroIff(ext, ".s98");
    assert LowerAll(".vgm") == ".vgm";
    assert LowerAll(".s98") == ".s98";
  }

  /** A name without a '.' is never playable. */
  lemma NoDotUnknown(name: string)
    requires '.' !in name
    ensures FileTypeOf(name) == Unknown
  {
  }

  /**
   * The base name shown and used for the cache: what follows the last '/',
   * else what follows the last '\\', else the whole name.
   */
  function BaseName(name: string): (b: string)
    ensures '/' !in b && |b| <= |name|
    ensures '/' !in name ==> '\\' !in b
    ensures exists k :: 0 <= k <= |name| && b == name[k..]
  {
    match LastIndex(name, '/')
    case Some(i) => name[i + 1..]
    case None =>
      match LastIndex(name, '\\')
      case Some(j) => name[j + 1..]
      case None => assert name == name[0..]; name
  }

  /** A file in a directory has its own name as base name, whichever separator joins them. */
  lemma BaseNameOfJoin(dir: string, sep: char, file: string)
    requires sep == '/' || (sep == '\\' && '/' !in dir)
    requires '/' !in file && '\\' !in file
    ensures BaseName(dir + [sep] + file) == file
  {
    var s := dir + [sep] + file;
    assert s[|dir| + 1..] == file;
    assert s[|dir|] == sep;
    if sep == '/' {
      LastIndexAt(s, '/', |dir|);
    } else {
      assert forall i :: 0 <= i < |s| ==> s[i] != '/' by {
        forall i | 0 <= i < |s|
          ensures s[i] != '/'
        {
          if i < |dir| { assert s[i] == dir[i]; } else if i > |dir| { assert s[i] == file[i - |dir| - 1]; }
        }
      }
      LastIndexAt(s, '\\', |dir|);
    }
  }

  // -------------------------------------------------------- cache file name

  /** `MAX_PATH_LEN`: the size of the cache-name buffer, NUL included. */
  const MAX_PATH_LEN := 1024

  /** What `snprintf` into a buffer of `size` bytes keeps of `s`. */
  function Truncated(s: string, size: nat): (r: string)
    requires size > 0
    ensures |r| < size && r <= s
    ensures |s| < size ==> r == s
  {
    if |s| < size then s else s[..size - 1]
  }

  /** The cache file name `play_file` (v0.911) derives for a song. */
  function CacheName(name: string): (c: string)
  {
    Truncated("console_player/cache/" + BaseName(name) + ".opm.vgm", MAX_PATH_LEN)
  }

  /**
   * The cache name depends on the base name alone: two songs of the same
   * name in different directories share a cache file. Short enough names are
   * kept whole.
   */
  lemma CacheNameOfJoin(dir: string, file: string)
    requires '/' !in file && '\\' !in file
    requires |file| < MAX_PATH_LEN - 29
    ensures CacheName(dir + "/" + file) == "console_player/cache/" + file + ".opm.vgm"
  {
    BaseNameOfJoin(dir, '/', file);
  }

  // -------------------------------------------------------- S98 length scan

  /** A byte of the S98 buffer; reads past its end (which C makes past the allocation) see 0. */
  function At(buffer: seq<byte>, i: nat): byte
  {
    if i < |buffer| then buffer[i] else 0
  }

  /** The length of the run of 0x01 bytes starting at `pos`. */
  function RunLen(buffer: seq<byte>, pos: nat): (n: nat)
    ensures pos + n <= |buffer| || n == 0
    ensures forall i :: pos <= i < pos + n ==> At(buffer, i) == 0x01
    ensures At(buffer, pos + n) != 0x01
    decreases |buffer| - pos
  {
    if At(buffer, pos) == 0x01 then 1 + RunLen(buffer, pos + 1) else 0
  }

  /**
   * The sync count the scan of `play_file` (v0.86 and v0.911) finds from
   * `pos`: 0x00 counts one, an 0x01 counts the length of its run of 0x01
   * bytes, an opcode of 0x80 or more skips two operand bytes, anything else
   * counts nothing.
   */
  function Scan(buffer: seq<byte>, pos: nat): (n: nat)
    decreases |buffer| - pos
  {
    if pos >= |buffer| then 0
    else
      var op := buffer[pos];
      if op == 0x00 then 1 + Scan(buffer, pos + 1)
      else if op == 0x01 then
        var r := RunLen(buffer, pos + 1);
        (1 + r) + Scan(buffer, pos + 1 + r)
      else if op >= 0x80 then Scan(buffer, pos + 3)
      else Scan(buffer, pos + 1)
  }

  /** The same scan as written: the run length is kept in a `uint8_t`. */
  function ScanAsWritten(buffer: seq<byte>, pos: nat): (n: nat)
    decreases |buffer| - pos
  {
    if pos >= |buffer| then 0
    else
      var op := buffer[pos];
      if op == 0x00 then 1 + ScanAsWritten(buffer, pos + 1)
      else if op == 0x01 then
        var r := RunLen(buffer, pos + 1);
        (1 + r) % 0x100 + ScanAsWritten(buffer, pos + 1 + r)
      else if op >= 0x80 then ScanAsWritten(buffer, pos + 3)
      else ScanAsWritten(buffer, pos + 1)
  }

  /** The scan counts at most one sync per byte, so its `uint32_t` total cannot wrap. */
  lemma {:induction false} ScanBound(buffer: seq<byte>, pos: nat)
    ensures Scan(buffer, pos) <= |buffer| - pos || (pos >= |buffer| && Scan(buffer, pos) == 0)
    decreases |buffer| - pos
  {
    if pos < |buffer| {
      var op := buffer[pos];
      if op == 0x00 {
        ScanBound(buffer, pos + 1);
      } else if op == 0x01 {
        ScanBound(buffer, pos + 1 + RunLen(buffer, pos + 1));
      } else if op >= 0x80 {
        ScanBound(buffer, pos + 3);
      } else {
        ScanBound(buffer, pos + 1);
      }
    }
  }

  /** Every opcode from 0x80 up skips two bytes, so the `0xFF` end branch is never reached: 0xFF ends nothing. */
  lemma EndMarkerSkipped(buffer: seq<byte>, pos: nat)
    requires pos < |buffer| && buffer[pos] == 0xFF
    ensures Scan(buffer, pos) == Scan(buffer, pos + 3)
  {
  }

  function Ones(n: nat): (s: seq<byte>)
    ensures |s| == n && forall i :: 0 <= i < n ==> s[i] == 0x01
  {
    if n == 0 then [] else [0x01] + Ones(n - 1)
  }

  lemma {:induction false} RunLenOfOnes(n: nat, pos: nat)
    requires pos <= n
    ensures RunLen(Ones(n), pos) == n - pos
    decreases n - pos
  {
    if pos < n {
      RunLenOfOnes(n, pos + 1);
    }
  }

  /** A run of 256 0x01 bytes counts 256 syncs; as written the byte counter wraps and it counts none. */
  lemma RunCounterWraps()
    ensures Scan(Ones(256), 0) == 256
    ensures ScanAsWritten(Ones(256), 0) == 0
  {
    RunLenOfOnes(256, 1);
  }

  /** The scan loop of `play_file`, from `offset_to_dump` to the end of the buffer. */
  method ScanS98(buffer: seq<byte>, start: nat) returns (total: u32)
    requires |buffer| < TWO32
    ensures total == Scan(buffer, start)
  {
    ScanBound(buffer, start);
    total := 0;
    var pos := start;
    while pos < |buffer|
      invariant total + Scan(buffer, pos) == Scan(buffer, start)
      decreases |buffer| - pos
    {
      ScanBound(buffer, pos);
      var op := buffer[pos];
      pos := pos + 1;
      if op == 0x00 {
        total := total + 1;
      } else if op == 0x01 {
        var n := 1;
        ghost var p0 := pos;
        while At(buffer, pos) == 0x01
          invariant p0 <= pos && n == 1 + (pos - p0)
          invariant RunLen(buffer, p0) == (pos - p0) + RunLen(buffer, pos)
          invariant pos <= |buffer|
          decreases |buffer| - pos
        {
          n := n + 1;
          pos := pos + 1;
        }
        total := total + n;
      } else if op >= 0x80 {
        pos := pos + 2;
      }
    }
  }

  // ------------------------------------------------------- total-time display

  /**
   * The samples v0.911 shows as the total: the loop part is added once per
   * extra loop, in `uint32_t` arithmetic.
   */
  function DisplayTotal(total: u32, loopSamples: u32, loops: int): (d: u32)
  {
    if loopSamples > 0 && loops > 1 then (total + loopSamples * (loops - 1)) % TWO32 else total
  }

  /** Without overflow the shown total is the song plus each extra loop; with one loop or none it is the song alone. */
  lemma DisplayTotalCounts(total: u32, loopSamples: u32, loops: int)
    ensures loops <= 1 || loopSamples == 0 ==> DisplayTotal(total, loopSamples, loops) == total
    ensures loops > 1 && total + loopSamples * (loops - 1) < TWO32 ==>
      DisplayTotal(total, loopSamples, loops) == total + loopSamples * (loops - 1) >= total
  {
  }

  /** The `mm:ss` shown for a sample count at 44100 Hz. */
  function Clock(samples: nat): (mmss: (nat, nat))
  {
    var sec := samples / 44100;
    (sec / 60, sec % 60)
  }

  lemma ClockSplits(samples: nat)
    ensures Clock(samples).1 < 60
    ensures Clock(samples).0 * 60 + Clock(samples).1 == samples / 44100
  {
  }

  /** The seconds v0.83 shows: `total / 44100` for a positive total, else 0. */
  function TotalSeconds(total: int): (sec: nat)
  {
    if total > 0 then total / 44100 else 0
  }

  lemma TotalSecondsBounds(total: int)
    ensures total <= 0 ==> TotalSeconds(total) == 0
    ensures total > 0 ==> TotalSeconds(total) * 44100 <= total < (TotalSeconds(total) + 1) * 44100
  {
  }

  /** The song total `update_ui` of v0.84 remembers across calls. */
  class SongTotal {
    var samples: int   // `g_current_song_total_samples`

    constructor ()
      ensures samples == 0
    {
      samples := 0;
    }

    /** `update_ui` (v0.84): a positive total replaces the remembered one; the seconds shown follow it. */
    method Update(total: int) returns (sec: nat)
      modifies this
      ensures samples == (if total > 0 then total else old(samples))
      ensures sec == TotalSeconds(samples)
    {
      if total > 0 {
        samples := total;
      }
      sec := TotalSeconds(samples);
    }
  }

  /** The remembered total after a sequence of `update_ui` calls. */
  function LastPositive(init: int, totals: seq<int>): (r: int)
    ensures r == init || r in totals
    ensures init > 0 || (exists t :: t in totals && t > 0) ==> r > 0
  {
    if |totals| == 0 then init
    else
      var prev := LastPositive(init, totals[..|totals| - 1]);
      assert forall t :: t in totals ==> t in totals[..|totals| - 1] || t == totals[|totals| - 1];
      if totals[|totals| - 1] > 0 then totals[|totals| - 1] else prev
  }

  // ------------------------------------------------------------ timer names

  /** `get_timer_mode_string` of v0.86 and v0.911. */
  function TimerModeName(mode: int): (s: string)
  {
    if mode == 0 then "H-Prec Sleep (Compensated)"
    else if mode == 1 then "Hybrid Sleep (Compensated)"
    else if mode == 2 then "MM-Timer (Compensated)"
    else if mode == 3 then "VGMPlay Mode"
    else if mode == 7 then "Optimized VGMPlay Mode"
    else "Unknown"
  }

  /** The timer-mode text `update_ui` of v0.84 shows. */
  function TimerModeNameV084(mode: int): (s: string)
  {
    if mode == 0 then "Default Sleep"
    else if mode == 1 then "Hybrid Sleep (10us)"
    else if mode == 2 then "Multimedia Timer (timeSetEvent)"
    else if mode == 3 then "Improved Default Sleep"
    else if mode == 4 then "Improved Hybrid Sleep"
    else if mode == 5 then "Improved Multimedia Timer"
    else if mode == 6 then "Experimental Timer"
    else "Unknown"
  }

  /** Exactly the modes 0, 1, 2, 3 and 7 have a name, and different modes have different names. */
  lemma TimerModeNamesDistinct(m1: int, m2: int)
    ensures TimerModeName(m1) != "Unknown" <==> m1 in {0, 1, 2, 3, 7}
    ensures TimerModeName(m1) != "Unknown" && m1 != m2 ==> TimerModeName(m1) != TimerModeName(m2)
  {
  }

  /** In v0.84 exactly the modes 0 to 6 have a name, and different modes have different names. */
  lemma TimerModeNamesV084Distinct(m1: int, m2: int)
    ensures TimerModeNameV084(m1) != "Unknown" <==> 0 <= m1 <= 6
    ensures TimerModeNameV084(m1) != "Unknown" && m1 != m2 ==> TimerModeNameV084(m1) != TimerModeNameV084(m2)
  {
  }

  // --------------------------------------------------------------- dispatch

  /**
   * What `play_file` returns in v0.83, v0.84 and v0.86, given whether the file
   * opened and what the S98 loader and the two players report.
   */
  function PlayFile(name: string, isOpen: bool, vgmPlayed: bool, s98Loaded: bool, s98Played: bool): (ok: bool)
  {
    isOpen &&
    match FileTypeOf(name)
    case Vgm => vgmPlayed
    case S98 => s98Loaded && s98Played
    case Unknown => false
  }

  /** In v0.911 the VGM branch reports success whatever `vgm_play` does. */
  function PlayFileV0911(name: string, isOpen: bool, s98Loaded: bool, s98Played: bool): (ok: bool)
  {
    isOpen &&
    match FileTypeOf(name)
    case Vgm => true
    case S98 => s98Loaded && s98Played
    case Unknown => false
  }

  /** A file that does not open, or whose type is unknown, is never played. */
  lemma PlayFileFails(name: string, isOpen: bool, vgmPlayed: bool, s98Loaded: bool, s98Played: bool)
    ensures !isOpen || FileTypeOf(name) == Unknown ==>
      !PlayFile(name, isOpen, vgmPlayed, s98Loaded, s98Played) && !PlayFileV0911(name, isOpen, s98Loaded, s98Played)
    ensures PlayFile(name, isOpen, vgmPlayed, s98Loaded, s98Played) ==> PlayFileV0911(name, isOpen, s98Loaded, s98Played)
    ensures isOpen && FileTypeOf(name) == Vgm ==> PlayFileV0911(name, isOpen, s98Loaded, s98Played)
  {
  }
}
