// The file browser of v0.86/console_player/browser.c. The entry order, the
// extension filter, the read loop and the page arithmetic are those of the
// later browser (module Browser); what differs is the path handling, which
// neither normalises separators nor special-cases "." and drive roots, and
// the static state: the entry table keeps whatever an earlier listing left
// beyond `file_count`, and neither the selection nor the page is reset when
// the browser is opened again.

module V0086Browser {
  import opened Bytes
  import opened CText
  import B = Browser

  // ------------------------------------------------------------------ paths

  /** The directory part of a path: up to its last '/', else its last '\\', else ".". */
  function DirOf(p: string): (r: string)
    ensures '/' in p ==> |r| < |p| && r == p[..|r|] && p[|r|] == '/' && '/' !in p[|r| + 1..]
    ensures '/' !in p && '\\' in p ==> |r| < |p| && r == p[..|r|] && p[|r|] == '\\' && '\\' !in p[|r| + 1..]
    ensures '/' !in p && '\\' !in p ==> r == "."
  {
    match LastIndex(p, '/')
    case Some(i) => p[..i]
    case None =>
      match LastIndex(p, '\\')
      case Some(i) => p[..i]
      case None => "."
  }

  /**
   * The directory `file_browser` opens in: that of the current song, or the
   * directory of the previous call when there is no song or it is "None".
   */
  function StartPath(current: string, song: Option<string>): (r: string)
    ensures song.None? || song.value == "None" ==> r == current
  {
    match song
    case None => current
    case Some(s) => if s == "None" then current else DirOf(B.Truncated(s))
  }

  /** Enter on "..": the path cut at its last '/', or "." when it has none. */
  function GoUp(path: string): (r: string)
    ensures '/' !in path ==> r == "."
    ensures '/' in path ==> |r| < |path| && r == path[..|r|] && path[|r|] == '/' && '/' !in path[|r| + 1..]
  {
    match LastIndex(path, '/')
    case Some(i) => path[..i]
    case None => "."
  }

  /** Enter on any other directory: `path/name`, in the path buffer. */
  function GoDown(path: string, name: string): (r: string)
  {
    B.Truncated(path + "/" + name)
  }

  /** Backspace: cut at the last '/' unless there is none or the path is a single character. */
  function BackUp(path: string): (r: string)
    ensures '/' in path && |path| > 1 ==> r == GoUp(path)
    ensures '/' !in path || |path| <= 1 ==> r == path
  {
    match LastIndex(path, '/')
    case Some(i) => if |path| > 1 then path[..i] else path
    case None => path
  }

  /** The path returned for a chosen file. */
  function FilePath(path: string, name: string): (r: string)
  {
    B.Truncated(path + "/" + name)
  }

  /** `path/name` with a name free of separators ends in that name after its last '/'. */
  lemma JoinLastSlash(path: string, name: string)
    requires B.PlainName(name)
    ensures LastIndex(path + "/" + name, '/') == Some(|path|)
    ensures (path + "/" + name)[..|path|] == path
  {
    var q := path + "/" + name;
    assert q[|path| + 1..] == name;
    LastIndexAt(q, '/', |path|);
  }

  /** Going down into a directory and back up returns to where the browser was, "." included. */
  lemma {:induction false} GoUpUndoesGoDown(path: string, name: string)
    requires B.PlainName(name)
    requires |path| + 1 + |name| < B.MAX_PATH_LEN
    ensures GoUp(GoDown(path, name)) == path
  {
    JoinLastSlash(path, name);
  }

  /** Backspace from `path/name` is the same as Enter on "..". */
  lemma {:induction false} BackUpOfJoin(path: string, name: string)
    requires B.PlainName(name)
    requires |path| + 1 + |name| < B.MAX_PATH_LEN
    ensures BackUp(GoDown(path, name)) == path
  {
    JoinLastSlash(path, name);
  }

  /** Backspace keeps "." and "/" and a path with no '/', where Enter on ".." goes to ".". */
  lemma BackUpAtTop(path: string)
    requires '/' !in path || |path| <= 1
    ensures BackUp(path) == path
    ensures '/' !in path ==> GoUp(path) == "."
  {
  }

  /** Opened again on the song it returned, the browser starts in the directory the song was chosen in. */
  lemma {:induction false} StartPathOfChosen(current: string, path: string, name: string)
    requires B.PlainName(name)
    requires |path| + 1 + |name| < B.MAX_PATH_LEN
    ensures StartPath(current, Some(FilePath(path, name))) == path
  {
    JoinLastSlash(path, name);
    assert FilePath(path, name) != "None";
  }

  /** A song path with no separator at all opens the browser in ".". */
  lemma StartPathOfBareName(current: string, name: string)
    requires B.PlainName(name) && name != "None" && |name| < B.MAX_PATH_LEN
    ensures StartPath(current, Some(name)) == "."
  {
  }

  // -------------------------------------------------------------- pages

  /** `display_file_list` moves a page past the last one back to the last one. */
  function Clamp(page: int, count: nat): (r: int)
    ensures r < B.TotalPages(count)
    ensures 0 <= page ==> 0 <= r
    ensures page < B.TotalPages(count) ==> r == page
  {
    if page >= B.TotalPages(count) then B.TotalPages(count) - 1 else page
  }

  /** The entry table as a fresh program has it: zero bytes, so empty names that are not directories. */
  function BlankTable(): (t: seq<B.Entry>)
    ensures |t| == B.MAX_FILES
    ensures forall i :: 0 <= i < |t| ==> t[i] == B.Entry("", false)
  {
    seq(B.MAX_FILES, _ => B.Entry("", false))
  }

  // -------------------------------------------------------------- key loop

  /** The browser's static state. */
  class Nav {
    var path: string            // `current_path`
    var table: seq<B.Entry>     // `file_list`, all `MAX_FILES` slots
    var count: nat              // `file_count`
    var selected: int           // `selected_index`
    var page: int               // `current_page`

    /**
     * The table has its fixed size, the selection is a slot of it and the
     * page is one `display_file_list` can show. The selection need not be
     * on that page, nor below `count`.
     */
    predicate Valid()
      reads this
    {
      |table| == B.MAX_FILES && count <= B.MAX_FILES &&
      0 <= selected < B.MAX_FILES && 0 <= page < B.TotalPages(count)
    }

    constructor ()
      ensures path == "." && table == BlankTable() && count == 0 && selected == 0 && page == 0
      ensures Valid()
    {
      path := ".";
      table := BlankTable();
      count := 0;
      selected := 0;
      page := 0;
    }

    /** `populate_file_list`: the kept entries overwrite the front of the table, the rest stays. */
    method Populate(listing: seq<B.Entry>)
      requires |table| == B.MAX_FILES
      modifies this`table, this`count
      ensures count == |B.Kept(listing, 0, B.MAX_FILES)| && count <= B.MAX_FILES
      ensures table == B.Kept(listing, 0, B.MAX_FILES) + old(table)[count..]
      ensures |table| == B.MAX_FILES
    {
      var kept := B.ReadEntries(listing);
      table := kept + table[|kept|..];
      count := |kept|;
    }

    /** The page clamp at the head of `display_file_list`, run after every key. */
    method Display()
      requires |table| == B.MAX_FILES && count <= B.MAX_FILES && 0 <= selected < B.MAX_FILES && 0 <= page
      modifies this`page
      ensures page == Clamp(old(page), count)
      ensures Valid()
    {
      var totalPages := (count + B.PAGE_SIZE - 1) / B.PAGE_SIZE;
      if totalPages == 0 {
        totalPages := 1;
      }
      if page >= totalPages {
        page := totalPages - 1;
      }
    }

    /** Entry into `file_browser`: the song's directory is read; selection and page carry over. */
    method Open(song: Option<string>, listing: seq<B.Entry>)
      requires Valid()
      modifies this
      ensures path == StartPath(old(path), song)
      ensures count == |B.Kept(listing, 0, B.MAX_FILES)|
      ensures table == B.Kept(listing, 0, B.MAX_FILES) + old(table)[count..]
      ensures selected == old(selected) && page == Clamp(old(page), count)
      ensures Valid()
    {
      path := StartPath(path, song);
      Populate(listing);
      Display();
    }

    /** Key 72. The source divides by `file_count`: this needs a non-empty list. */
    method Up()
      requires Valid() && count > 0
      modifies this
      ensures path == old(path) && table == old(table) && count == old(count)
      ensures selected == B.Wrap(old(selected), -1, count) && page == selected / B.PAGE_SIZE
      ensures Valid()
    {
      selected := (selected - 1 + count) % count;
      page := selected / B.PAGE_SIZE;
      B.PageOfEntry(selected, count);
      Display();
    }

    /** Key 80. */
    method Down()
      requires Valid() && count > 0
      modifies this
      ensures path == old(path) && table == old(table) && count == old(count)
      ensures selected == B.Wrap(old(selected), 1, count) && page == selected / B.PAGE_SIZE
      ensures Valid()
    {
      selected := (selected + 1) % count;
      page := selected / B.PAGE_SIZE;
      B.PageOfEntry(selected, count);
      Display();
    }

    /** Key 75: the previous page, its first slot selected; nothing on the first page. */
    method Left()
      requires Valid()
      modifies this
      ensures old(page) > 0 ==> page == old(page) - 1 && selected == page * B.PAGE_SIZE
      ensures old(page) == 0 ==> page == 0 && selected == old(selected)
      ensures path == old(path) && table == old(table) && count == old(count)
      ensures Valid()
    {
      if page > 0 {
        page := page - 1;
        selected := page * B.PAGE_SIZE;
      }
      Display();
    }

    /** Key 77: the next page, its first entry selected; nothing on the last page. */
    method Right()
      requires Valid()
      modifies this
      ensures old(page) < B.TotalPages(count) - 1 ==> page == old(page) + 1 && selected == page * B.PAGE_SIZE < count
      ensures old(page) >= B.TotalPages(count) - 1 ==> page == old(page) && selected == old(selected)
      ensures path == old(path) && table == old(table) && count == old(count)
      ensures Valid()
    {
      var totalPages := (count + B.PAGE_SIZE - 1) / B.PAGE_SIZE;
      if page < totalPages - 1 {
        page := page + 1;
        selected := page * B.PAGE_SIZE;
      }
      Display();
    }

    /**
     * Key 13, on the slot selected, whether or not it is below `count`. A
     * file returns its path; a directory is entered ("..", or a child) and
     * `listing` is what reading it yields. The page is not reset, only clamped.
     */
    method Enter(listing: seq<B.Entry>) returns (chosen: Option<string>)
      requires Valid()
      modifies this
      ensures !old(table)[old(selected)].isDir ==>
        (chosen == Some(FilePath(old(path), old(table)[old(selected)].name)) &&
         path == old(path) && table == old(table) && count == old(count) &&
         selected == old(selected) && page == old(page))
      ensures old(table)[old(selected)].isDir ==>
        (chosen == None &&
         path == (if old(table)[old(selected)].name == ".." then GoUp(old(path))
                  else GoDown(old(path), old(table)[old(selected)].name)) &&
         count == |B.Kept(listing, 0, B.MAX_FILES)| &&
         table == B.Kept(listing, 0, B.MAX_FILES) + old(table)[count..] &&
         selected == 0 && page == Clamp(old(page), count))
      ensures Valid()
    {
      chosen := None;
      var e := table[selected];
      if e.isDir {
        if e.name == ".." {
          path := GoUp(path);
        } else {
          path := GoDown(path, e.name);
        }
        selected := 0;
        Populate(listing);
        Display();
      } else {
        chosen := Some(FilePath(path, e.name));
      }
    }

    /** Key 8: up one directory unless at a single-character path or one with no '/'. */
    method Backspace(listing: seq<B.Entry>)
      requires Valid()
      modifies this
      ensures path == BackUp(old(path))
      ensures count == |B.Kept(listing, 0, B.MAX_FILES)|
      ensures table == B.Kept(listing, 0, B.MAX_FILES) + old(table)[count..]
      ensures selected == 0 && page == Clamp(old(page), count)
      ensures Valid()
    {
      path := BackUp(path);
      selected := 0;
      Populate(listing);
      Display();
    }
  }
}
