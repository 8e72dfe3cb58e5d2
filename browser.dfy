// The file browser of v0.915/console_player/browser.c: path normalisation,
// the entry order and filter, the page arithmetic and the key handling that
// moves the selection and the current directory. Reading a directory is I/O:
// the entries it yields (name and whether it is a directory) are a
// parameter.

module Browser {
  import opened Bytes
  import opened CText

  const PAGE_SIZE := 10
  const MAX_FILES := 512
  /** `MAX_PATH_LEN`: the size of the path buffers, NUL included. */
  const MAX_PATH_LEN := 1024

  /** A `FileEntry`: a name (at most 255 characters) and whether it is a directory. */
  datatype Entry = Entry(name: string, isDir: bool)

  // ------------------------------------------------------------ order and filter

  /** The sign of `compare_entries`: directories before files, then names without case. */
  function Compare(a: Entry, b: Entry): (r: int)
    ensures a.isDir && !b.isDir ==> r < 0
    ensures !a.isDir && b.isDir ==> r > 0
  {
    if a.isDir != b.isDir then (if b.isDir then 1 else 0) - (if a.isDir then 1 else 0)
    else CaseCompare(a.name, b.name)
  }

  /** `compare_entries` is a total preorder, as `qsort` needs: antisymmetric in sign and transitive. */
  lemma CompareIsOrder(a: Entry, b: Entry, c: Entry)
    ensures Compare(a, b) == -Compare(b, a)
    ensures Compare(a, b) <= 0 && Compare(b, c) <= 0 ==> Compare(a, c) <= 0
  {
    CaseCompareAntisymmetric(a.name, b.name);
    if a.isDir == b.isDir == c.isDir && Compare(a, b) <= 0 && Compare(b, c) <= 0 {
      CaseCompareTransitive(a.name, b.name, c.name);
    }
  }

  /** Entries of the same kind compare equal exactly when their names agree without case. */
  lemma CompareZeroIff(a: Entry, b: Entry)
    ensures Compare(a, b) == 0 <==> a.isDir == b.isDir && LowerAll(a.name) == LowerAll(b.name)
  {
    CaseCompareZeroIff(a.name, b.name);
  }

  /** Whether a name's last extension is one the browser lists: .vgm, .vgz or .s98, without case. */
  predicate Playable(name: string)
  {
    match LastIndex(name, '.')
    case None => false
    case Some(i) =>
      CaseCompare(name[i..], ".vgm") == 0 || CaseCompare(name[i..], ".vgz") == 0 ||
      CaseCompare(name[i..], ".s98") == 0
  }

  /** Whether `populate_file_list` keeps a directory entry: not ".", and a directory or a playable file. */
  predicate Listed(e: Entry)
  {
    e.name != "." && (e.isDir || Playable(e.name))
  }

  /** The entries kept from a directory listing read from entry `i` on, reading stopped once `room` are kept. */
  function Kept(listing: seq<Entry>, i: nat, room: nat): (r: seq<Entry>)
    ensures |r| <= room
    ensures forall e :: e in r ==> e in listing && Listed(e)
    decreases |listing| - i
  {
    if i >= |listing| || room == 0 then []
    else if Listed(listing[i]) then [listing[i]] + Kept(listing, i + 1, room - 1)
    else Kept(listing, i + 1, room)
  }

  /** Below the limit every listed entry is kept, none other. */
  lemma {:induction false} KeptAll(listing: seq<Entry>, i: nat, room: nat)
    requires i <= |listing| && |listing| - i <= room
    ensures forall j :: i <= j < |listing| && Listed(listing[j]) ==> listing[j] in Kept(listing, i, room)
    decreases |listing| - i
  {
    if i < |listing| {
      KeptAll(listing, i + 1, if Listed(listing[i]) then room - 1 else room);
    }
  }

  /** The read loop of `populate_file_list` (before the sort). */
  method ReadEntries(listing: seq<Entry>) returns (files: seq<Entry>)
    ensures files == Kept(listing, 0, MAX_FILES)
  {
    files := [];
    var i := 0;
    while i < |listing| && |files| < MAX_FILES
      invariant 0 <= i <= |listing| && |files| <= MAX_FILES
      invariant files + Kept(listing, i, MAX_FILES - |files|) == Kept(listing, 0, MAX_FILES)
      decreases |listing| - i
    {
      hide Kept;
      var e := listing[i];
      KeptStep(listing, i, MAX_FILES - |files|);
      if Listed(e) {
        assert files + [e] + Kept(listing, i + 1, MAX_FILES - |files| - 1)
          == files + ([e] + Kept(listing, i + 1, MAX_FILES - |files| - 1));
        files := files + [e];
      }
      i := i + 1;
    }
  }

  /** One step of `Kept`. */
  lemma KeptStep(listing: seq<Entry>, i: nat, room: nat)
    requires i < |listing| && room > 0
    ensures Kept(listing, i, room)
      == if Listed(listing[i]) then [listing[i]] + Kept(listing, i + 1, room - 1) else Kept(listing, i + 1, room)
  {
  }

  // ------------------------------------------------------------------ paths

  /** Every '\\' turned into '/'. */
  function Slashed(s: string): (r: string)
    ensures |r| == |s| && '\\' !in r
    ensures forall i :: 0 <= i < |s| ==> r[i] == (if s[i] == '\\' then '/' else s[i])
  {
    if |s| == 0 then [] else [if s[0] == '\\' then '/' else s[0]] + Slashed(s[1..])
  }

  /** Whether a path is a drive root such as "C:/". */
  predicate DriveRoot(p: string)
  {
    |p| == 3 && p[1] == ':'
  }

  /** `normalize_path`: separators become '/', and one trailing '/' goes unless the path is "/" or a drive root. */
  function Normalize(s: string): (r: string)
    ensures '\\' !in r
    ensures r <= Slashed(s) && |s| - 1 <= |r|
    ensures |r| < |s| <==> (|s| > 1 && Slashed(s)[|s| - 1] == '/' && !DriveRoot(s))
  {
    var p := Slashed(s);
    if |p| > 1 && p[|p| - 1] == '/' && !DriveRoot(p) then p[..|p| - 1] else p
  }

  /** A path already normalised and not ending in '/' (other than "/" and drive roots) is left alone. */
  lemma NormalizeIdempotent(s: string)
    requires '\\' !in s
    requires |s| <= 1 || s[|s| - 1] != '/' || DriveRoot(s)
    ensures Normalize(s) == s
  {
    assert Slashed(s) == s;
  }

  /** What `snprintf`/`strncat` keep of a path in a `MAX_PATH_LEN` buffer. */
  function Truncated(s: string): (r: string)
    ensures |r| < MAX_PATH_LEN && r <= s
    ensures |s| < MAX_PATH_LEN ==> r == s
  {
    if |s| < MAX_PATH_LEN then s else s[..MAX_PATH_LEN - 1]
  }

  /** Enter on "..": the normalised path cut at its last '/', or "." at "/", at a drive root or without a '/'. */
  function GoUp(path: string): (r: string)
  {
    var p := Normalize(path);
    match LastIndex(p, '/')
    case None => "."
    case Some(i) => if i == 0 || DriveRoot(p) then "." else p[..i]
  }

  /** Backspace: as Enter on "..", except that a path whose only '/' leads is cut to "". */
  function BackUp(path: string): (r: string)
  {
    var p := Normalize(path);
    match LastIndex(p, '/')
    case None => "."
    case Some(i) => if DriveRoot(p) then "." else p[..i]
  }

  /** Enter on a directory entry other than "..": the name is appended, or replaces ".". */
  function GoDown(path: string, name: string): (r: string)
  {
    if path != "." then Normalize(Truncated(Truncated(path + "/") + name))
    else Normalize(Truncated(name))
  }

  /** A name that can be appended to a path: no separator of either kind. */
  predicate PlainName(name: string)
  {
    |name| > 0 && '/' !in name && '\\' !in name
  }

  /** Going down into a directory and back up returns to where the browser was. */
  lemma GoUpUndoesGoDown(path: string, name: string)
    requires PlainName(name)
    requires path == "." || (|path| > 0 && '\\' !in path && path[|path| - 1] != '/' && !DriveRoot(path))
    requires |path| + 1 + |name| < MAX_PATH_LEN
    ensures GoUp(GoDown(path, name)) == path
  {
    if path == "." {
      NormalizeIdempotent(name);
      assert GoDown(path, name) == name;
      assert LastIndex(name, '/') == None;
    } else {
      JoinIsNormal(path, name);
      assert GoDown(path, name) == path + "/" + name;
      GoUpOfJoin(path, name);
    }
  }

  lemma GoUpOfJoin(path: string, name: string)
    requires PlainName(name) && |path| > 0 && '\\' !in path
    ensures GoUp(path + "/" + name) == path
  {
    var q := path + "/" + name;
    JoinIsNormal(path, name);
    LastIndexAt(q, '/', |path|);
    assert q[..|path|] == path;
  }

  /** A plain name appended to a normal path gives a normal path, cut at its last '/' back to the original. */
  lemma JoinIsNormal(path: string, name: string)
    requires PlainName(name) && |path| > 0 && '\\' !in path
    ensures var q := path + "/" + name;
      Normalize(q) == q && q[|path|] == '/' && '/' !in q[|path| + 1..] && !DriveRoot(q)
  {
    var q := path + "/" + name;
    assert q[|path| + 1..] == name;
    assert forall i :: 0 <= i < |q| ==> q[i] != '\\' by {
      forall i | 0 <= i < |q|
        ensures q[i] != '\\'
      {
        if i < |path| { assert q[i] == path[i]; } else if i > |path| { assert q[i] == name[i - |path| - 1]; }
      }
    }
    assert q[|q| - 1] == name[|name| - 1];
    NormalizeIdempotent(q);
  }

  /** Going up never yields a path with a '\\'. */
  lemma GoUpNormal(path: string)
    ensures '\\' !in GoUp(path)
  {
  }

  /** The directory Enter on a directory entry moves to, normalised. */
  function EnterPath(path: string, name: string, driveList: bool): (r: string)
    ensures '\\' !in r
  {
    if driveList then Normalize(Truncated(name + "/"))
    else if name == ".." then Normalize(GoUp(path))
    else GoDown(path, name)
  }

  /** The path `file_browser` returns for a chosen file. */
  function FilePath(path: string, name: string): (r: string)
  {
    Normalize(Truncated(path + "/" + name))
  }

  // -------------------------------------------------------------- pages

  /** `total_pages` as `display_file_list` computes it: `ceil(count / 10)`, at least 1. */
  function TotalPages(count: nat): (n: nat)
    ensures n >= 1
    ensures count > 0 ==> (n - 1) * PAGE_SIZE < count
    ensures count == 0 ==> n == 1
    ensures count <= n * PAGE_SIZE
  {
    var t := (count + PAGE_SIZE - 1) / PAGE_SIZE;
    if t == 0 then 1 else t
  }

  /** `(i + k + count) % count` for the step `k` of Up (-1) or Down (+1). */
  function Wrap(i: int, k: int, count: nat): (r: nat)
    requires count > 0
    ensures r < count
    ensures 0 <= i < count && 0 <= i + k < count ==> r == i + k
  {
    ModOfInRange(i + k, count);
    if k < 0 then (i + k + count) % count else (i + k) % count
  }

  lemma ModOfInRange(x: int, n: int)
    requires n > 0
    ensures 0 <= x < n ==> x % n == x && (x + n) % n == x
  {
  }

  /** Up at the first entry goes to the last one, Down at the last goes to the first. */
  lemma WrapEnds(count: nat)
    requires count > 0
    ensures Wrap(0, -1, count) == count - 1
    ensures Wrap(count - 1, 1, count) == 0
  {
  }

  // -------------------------------------------------------------- key loop

  /** The browser's static state. */
  class Nav {
    var path: string            // `current_path`
    var files: seq<Entry>       // `file_list[..file_count]`
    var selected: int           // `selected_index`
    var page: int               // `current_page`
    var driveList: bool         // `is_drive_list`

    /** The selection is an entry of the list (0 when it is empty) and the page is the one holding it. */
    predicate Valid()
      reads this
    {
      0 <= selected && (selected < |files| || selected == 0) &&
      page == selected / PAGE_SIZE && page < TotalPages(|files|)
    }

    constructor ()
      ensures path == "." && files == [] && selected == 0 && page == 0 && !driveList
      ensures Valid()
    {
      path := ".";
      files := [];
      selected := 0;
      page := 0;
      driveList := false;
    }

    /** Key 72. The source divides by `file_count`: this needs a non-empty list. */
    method Up()
      requires Valid() && |files| > 0
      modifies this
      ensures path == old(path) && files == old(files) && driveList == old(driveList)
      ensures selected == Wrap(old(selected), -1, |files|) && page == selected / PAGE_SIZE
      ensures Valid()
    {
      selected := (selected - 1 + |files|) % |files|;
      page := selected / PAGE_SIZE;
      PageOfEntry(selected, |files|);
    }

    /** Key 80. */
    method Down()
      requires Valid() && |files| > 0
      modifies this
      ensures path == old(path) && files == old(files) && driveList == old(driveList)
      ensures selected == Wrap(old(selected), 1, |files|) && page == selected / PAGE_SIZE
      ensures Valid()
    {
      selected := (selected + 1) % |files|;
      page := selected / PAGE_SIZE;
      PageOfEntry(selected, |files|);
    }

    /** Key 75: the previous page, its first entry selected; nothing on the first page. */
    method Left()
      requires Valid()
      modifies this
      ensures old(page) > 0 ==> page == old(page) - 1 && selected == page * PAGE_SIZE
      ensures old(page) == 0 ==> page == 0 && selected == old(selected)
      ensures path == old(path) && files == old(files) && driveList == old(driveList)
      ensures Valid()
    {
      if page > 0 {
        page := page - 1;
        selected := page * PAGE_SIZE;
      }
    }

    /** Key 77: the next page, its first entry selected; nothing on the last page. */
    method Right()
      requires Valid()
      modifies this
      ensures old(page) < TotalPages(|files|) - 1 ==> page == old(page) + 1 && selected == page * PAGE_SIZE
      ensures old(page) >= TotalPages(|files|) - 1 ==> page == old(page) && selected == old(selected)
      ensures path == old(path) && files == old(files) && driveList == old(driveList)
      ensures Valid()
    {
      var totalPages := (|files| + PAGE_SIZE - 1) / PAGE_SIZE;
      if page < totalPages - 1 {
        page := page + 1;
        selected := page * PAGE_SIZE;
      }
    }

    /**
     * Key 13. A file is chosen and its path returned; a directory is entered
     * (a drive, "..", or a child) and `listing` is what reading the new
     * directory yields; the reread normalises the path once more. An empty
     * list ignores the key.
     */
    method Enter(listing: seq<Entry>) returns (chosen: Option<string>)
      requires Valid()
      modifies this
      ensures |old(files)| == 0 ==>
        (chosen == None && path == old(path) && files == old(files) && selected == old(selected) && page == old(page))
      ensures |old(files)| > 0 && !old(files)[old(selected)].isDir ==>
        (chosen == Some(FilePath(old(path), old(files)[old(selected)].name)) && path == old(path) && files == old(files))
      ensures |old(files)| > 0 && old(files)[old(selected)].isDir ==>
        (chosen == None && path == Normalize(EnterPath(old(path), old(files)[old(selected)].name, old(driveList))) &&
         files == Kept(listing, 0, MAX_FILES) && selected == 0 && page == 0)
      ensures Valid()
    {
      chosen := None;
      if |files| == 0 {
        return;
      }
      var e := files[selected];
      if e.isDir {
        path := Normalize(EnterPath(path, e.name, driveList));
        selected := 0;
        page := 0;
        files := ReadEntries(listing);
        driveList := false;
      } else {
        chosen := Some(FilePath(path, e.name));
      }
    }

    /** Key 8: up one directory, normalised again by the reread; ignored in the drive list. */
    method Backspace(listing: seq<Entry>)
      requires Valid()
      modifies this
      ensures old(driveList) ==> path == old(path) && files == old(files) && selected == old(selected) && page == old(page)
      ensures !old(driveList) ==> path == Normalize(BackUp(old(path))) && files == Kept(listing, 0, MAX_FILES) && selected == 0 && page == 0
      ensures Valid()
    {
      if driveList {
        return;
      }
      path := Normalize(BackUp(path));
      selected := 0;
      page := 0;
      files := ReadEntries(listing);
    }
  }

  /** The page of an entry exists. */
  lemma PageOfEntry(i: nat, count: nat)
    requires i < count
    ensures i / PAGE_SIZE < TotalPages(count)
  {
  }
}
