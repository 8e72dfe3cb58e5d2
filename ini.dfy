// The vendored inih parser of v0.884/console_player/ini.h, configured as the
// player builds it: multi-line values, a UTF-8 byte-order mark on line 1,
// inline ';' comments, quoted values, line numbers passed to the handler, and
// parsing stopped at the first error. A C string is a `seq<char>` (the
// characters before its NUL); a pointer into the line buffer is an index.

module Ini {
  import opened Bytes

  const MAX_SECTION: nat := 50
  const MAX_NAME: nat := 50
  /** `char line[200]`: `fgets` reads at most 199 characters per call. */
  const LINE_BUF: nat := 200

  /** `isspace` in the C locale: space, and '\t' through '\r'. */
  predicate IsSpace(c: char)
  {
    c == ' ' || ('\t' <= c <= '\r')
  }

  // ------------------------------------------------------------ specification

  /** The string with every trailing whitespace character removed. */
  function TrimRight(s: string): (r: string)
    ensures |r| <= |s|
  {
    if s != [] && IsSpace(s[|s| - 1]) then TrimRight(s[..|s| - 1]) else s
  }

  /**
   * `rstrip` keeps a prefix: everything it drops is whitespace, and what it
   * keeps does not end in whitespace.
   */
  lemma {:induction false} TrimRightSpec(s: string)
    ensures var r := TrimRight(s);
      r == s[..|r|] && (r == [] || !IsSpace(r[|r| - 1])) &&
      forall i :: |r| <= i < |s| ==> IsSpace(s[i])
  {
    if s != [] && IsSpace(s[|s| - 1]) {
      TrimRightSpec(s[..|s| - 1]);
    }
  }

  /** Index of the first non-whitespace character, or `|s|`. */
  function SpaceRun(s: string): (k: nat)
    ensures k <= |s|
  {
    if s == [] || !IsSpace(s[0]) then 0 else 1 + SpaceRun(s[1..])
  }

  /** `lskip` stops at the first non-whitespace character. */
  lemma {:induction false} SpaceRunSpec(s: string)
    ensures var k := SpaceRun(s);
      (forall i :: 0 <= i < k ==> IsSpace(s[i])) && (k < |s| ==> !IsSpace(s[k]))
  {
    if s != [] && IsSpace(s[0]) {
      SpaceRunSpec(s[1..]);
    }
  }

  /**
   * Index of the first `c`, or of the first ';' right after a whitespace
   * character, or `|s|` when there is neither.
   */
  function CharOrComment(s: string, c: char): (k: nat)
    ensures k <= |s|
  {
    CharOrCommentFrom(s, c, 0)
  }

  function CharOrCommentFrom(s: string, c: char, i: nat): (k: nat)
    requires i <= |s|
    ensures i <= k <= |s|
    decreases |s| - i
  {
    if i == |s| || s[i] == c || (i > 0 && IsSpace(s[i - 1]) && s[i] == ';') then i
    else CharOrCommentFrom(s, c, i + 1)
  }

  /** A ';' that starts an inline comment: one directly after whitespace. */
  predicate CommentAt(s: string, i: nat)
    requires i < |s|
  {
    i > 0 && IsSpace(s[i - 1]) && s[i] == ';'
  }

  /**
   * `find_char_or_comment` stops at the first `c` or comment ';', or at the
   * end of the string when there is neither.
   */
  lemma {:induction false} CharOrCommentSpec(s: string, c: char)
    ensures var k := CharOrComment(s, c);
      (k < |s| ==> s[k] == c || CommentAt(s, k)) &&
      forall i :: 0 <= i < k ==> s[i] != c && !CommentAt(s, i)
  {
    CharOrCommentFromSpec(s, c, 0);
  }

  lemma {:induction false} CharOrCommentFromSpec(s: string, c: char, i: nat)
    requires i <= |s|
    requires forall j :: 0 <= j < i ==> s[j] != c && !CommentAt(s, j)
    ensures var k := CharOrCommentFrom(s, c, i);
      (k < |s| ==> s[k] == c || CommentAt(s, k)) &&
      forall j :: 0 <= j < k ==> s[j] != c && !CommentAt(s, j)
    decreases |s| - i
  {
    if !(i == |s| || s[i] == c || CommentAt(s, i)) {
      CharOrCommentFromSpec(s, c, i + 1);
    }
  }

  /** `strncpy0(dest, src, size)`: at most `size - 1` characters, always terminated. */
  function Strncpy0(src: string, size: nat): (r: string)
    requires size >= 1
    ensures |r| <= size - 1 && |r| <= |src|
    ensures r == src[..|r|]
    ensures |src| < size ==> r == src
  {
    src[..Min(|src|, size - 1)]
  }

  /** The C string held in a buffer: everything before the first NUL. */
  function CStr(s: string): (r: string)
    ensures |r| <= |s|
  {
    if s == [] || s[0] == '\0' then [] else [s[0]] + CStr(s[1..])
  }

  lemma {:induction false} CStrSpec(s: string)
    ensures var r := CStr(s);
      r == s[..|r|] && '\0' !in r && (|r| < |s| ==> s[|r|] == '\0')
  {
    if s != [] && s[0] != '\0' {
      CStrSpec(s[1..]);
    }
  }

  /** Length of the next `fgets` chunk: through the first newline, at most 199 characters. */
  function ChunkLen(s: string): (n: nat)
    requires s != []
    ensures 1 <= n <= |s| && n <= LINE_BUF - 1
  {
    ChunkLenFrom(s, 0)
  }

  function ChunkLenFrom(s: string, i: nat): (n: nat)
    requires i < |s| && i < LINE_BUF - 1
    ensures i + 1 <= n <= |s| && n <= LINE_BUF - 1
    decreases |s| - i
  {
    if s[i] == '\n' || i + 1 == |s| || i + 1 == LINE_BUF - 1 then i + 1 else ChunkLenFrom(s, i + 1)
  }

  /**
   * `fgets` into a 200-byte buffer: a chunk ends at its first newline, at the
   * end of the file, or after 199 characters (a longer line is read, and
   * numbered, as several lines).
   */
  lemma {:induction false} ChunkLenSpec(s: string)
    requires s != []
    ensures var n := ChunkLen(s);
      (forall i :: 0 <= i < n - 1 ==> s[i] != '\n') &&
      (s[n - 1] == '\n' || n == |s| || n == LINE_BUF - 1)
  {
    ChunkLenFromSpec(s, 0);
  }

  lemma {:induction false} ChunkLenFromSpec(s: string, i: nat)
    requires i < |s| && i < LINE_BUF - 1
    requires forall j :: 0 <= j < i ==> s[j] != '\n'
    ensures var n := ChunkLenFrom(s, i);
      (forall j :: 0 <= j < n - 1 ==> s[j] != '\n') &&
      (s[n - 1] == '\n' || n == |s| || n == LINE_BUF - 1)
    decreases |s| - i
  {
    if !(s[i] == '\n' || i + 1 == |s| || i + 1 == LINE_BUF - 1) {
      ChunkLenFromSpec(s, i + 1);
    }
  }

  /** One call of the handler: section, name, value and line number. */
  datatype Call = Call(section: string, name: string, value: string, lineno: nat)

  /** The user's `ini_handler`; its result says whether the pair was accepted. */
  type Handler = Call -> bool

  datatype IniState = IniState(section: string, prevName: string, error: nat, calls: seq<Call>)

  const INIT: IniState := IniState("", "", 0, [])

  const BOM: string := ['ï', '»', '¿']

  /** Strips one pair of surrounding double quotes (a lone '"' becomes empty). */
  function Unquote(v: string): (r: string)
    ensures |v| >= 2 && v[0] == '"' && v[|v| - 1] == '"' ==> r == v[1..|v| - 1]
    ensures !(|v| >= 1 && v[0] == '"' && v[|v| - 1] == '"') ==> r == v
  {
    if |v| >= 1 && v[0] == '"' && v[|v| - 1] == '"' then
      (if |v| == 1 then "" else v[1..|v| - 1])
    else v
  }

  /** Records a handler call; its rejection sets the error line. */
  function Handle(st: IniState, h: Handler, c: Call): (r: IniState)
    ensures r.calls == st.calls + [c]
    ensures r.error == (if h(c) || st.error != 0 then st.error else c.lineno)
    ensures r.section == st.section && r.prevName == st.prevName
  {
    IniState(st.section, st.prevName, if !h(c) && st.error == 0 then c.lineno else st.error,
      st.calls + [c])
  }

  /** The trimmed text of a line and whether leading characters were skipped. */
  function LineStart(chunk: string, lineno: nat): (string, bool)
  {
    var t := CStr(chunk);
    var bom := lineno == 1 && |t| >= 3 && t[..3] == BOM;
    var u := TrimRight(if bom then t[3..] else t);
    var k := SpaceRun(u);
    (u[k..], bom || k > 0)
  }

  /** Where a `name=value` line splits: the first '=', else the first ':' (either may stop at a comment). */
  function Separator(s: string): (e: nat)
    ensures e <= |s|
  {
    var e1 := CharOrComment(s, '=');
    if e1 < |s| && s[e1] == '=' then e1 else CharOrComment(s, ':')
  }

  /** The value after the separator: cut at the first ';', trimmed, one pair of quotes removed. */
  function ValueText(v0: string): string
  {
    var v1 := v0[..CharOrComment(v0, ';')];
    Unquote(TrimRight(v1[SpaceRun(v1)..]))
  }

  /** A `name=value` (or `name:value`) line: at most one call, at this line. */
  function NameValue(st: IniState, h: Handler, s: string, lineno: nat): (r: IniState)
    requires s != []
    ensures r.calls == st.calls || (|r.calls| == |st.calls| + 1 && r.calls[..|st.calls|] == st.calls &&
                                    r.calls[|st.calls|].lineno == lineno)
    ensures r.error == st.error || (st.error == 0 && r.error == lineno)
  {
    var e := Separator(s);
    if e < |s| && (s[e] == '=' || s[e] == ':') then
      var name := TrimRight(s[..e]);
      Handle(st.(prevName := Strncpy0(name, MAX_NAME)), h, Call(st.section, name, ValueText(s[e + 1..]), lineno))
    else if st.error == 0 then st.(error := lineno)
    else st
  }

  /** A `[section]` line; `s` starts with '['. */
  function SectionHeader(st: IniState, s: string, lineno: nat): (r: IniState)
    requires s != []
    ensures r.calls == st.calls
    ensures r.error == st.error || (st.error == 0 && r.error == lineno)
  {
    var body := s[1..];
    var e := CharOrComment(body, ']');
    if e < |body| && body[e] == ']' then
      st.(section := Strncpy0(body[..e], MAX_SECTION), prevName := "")
    else if st.error == 0 then st.(error := lineno)
    else st
  }

  /**
   * One iteration of the `ini_parse_file` loop body, for line number
   * `lineno`: at most one handler call, carrying that line number, and an
   * error, if one is newly recorded, is that line's.
   */
  function Step(st: IniState, h: Handler, chunk: string, lineno: nat): (r: IniState)
    ensures r.calls == st.calls || (|r.calls| == |st.calls| + 1 && r.calls[..|st.calls|] == st.calls &&
                                    r.calls[|st.calls|].lineno == lineno)
    ensures r.error == st.error || (st.error == 0 && r.error == lineno)
  {
    var (s, moved) := LineStart(chunk, lineno);
    if s != [] && (s[0] == ';' || s[0] == '#') then st
    else if st.prevName != [] && s != [] && moved then
      Handle(st, h, Call(st.section, st.prevName, s, lineno))
    else if s != [] && s[0] == '[' then SectionHeader(st, s, lineno)
    else if s != [] then NameValue(st, h, s, lineno)
    else st
  }

  /** The parse of the rest of the file, from line number `lineno`, stopping after the first error. */
  function ParseFrom(rest: string, h: Handler, lineno: nat, st: IniState): IniState
    decreases |rest|
  {
    if rest == [] then st
    else
      var n := ChunkLen(rest);
      var st' := Step(st, h, rest[..n], lineno);
      if st'.error != 0 then st' else ParseFrom(rest[n..], h, lineno + 1, st')
  }

  // -------------------------------------------------------------- properties

  /** A comment line changes nothing. */
  lemma CommentLineIgnored(st: IniState, h: Handler, chunk: string, lineno: nat)
    requires LineStart(chunk, lineno).0 != []
    requires LineStart(chunk, lineno).0[0] in {';', '#'}
    ensures Step(st, h, chunk, lineno) == st
  {
  }

  /**
   * A section line sets the section (at most 49 characters) and forgets the
   * previous name; a '[' line without ']' records its line number.
   */
  lemma SectionLine(st: IniState, h: Handler, chunk: string, lineno: nat)
    requires st.error == 0
    requires var (s, moved) := LineStart(chunk, lineno);
      s != [] && s[0] == '[' && !(st.prevName != [] && moved)
    ensures var s := LineStart(chunk, lineno).0;
      var e := CharOrComment(s[1..], ']');
      var r := Step(st, h, chunk, lineno);
      if e < |s| - 1 && s[1 + e] == ']' then
        r.section == s[1..1 + e][..|r.section|] && |r.section| < MAX_SECTION &&
        r.prevName == "" && r.error == 0 && r.calls == st.calls
      else r.error == lineno && r.calls == st.calls
  {
  }

  /** An indented line after a name continues that name's value. */
  lemma ContinuationLine(st: IniState, h: Handler, chunk: string, lineno: nat)
    requires var (s, moved) := LineStart(chunk, lineno);
      s != [] && s[0] != ';' && s[0] != '#' && st.prevName != [] && moved
    ensures Step(st, h, chunk, lineno).calls ==
      st.calls + [Call(st.section, st.prevName, LineStart(chunk, lineno).0, lineno)]
  {
  }

  /** Every recorded call comes from a line numbered at most `bound`. */
  predicate CallsUpTo(calls: seq<Call>, bound: nat)
  {
    forall i :: 0 <= i < |calls| ==> LineOf(calls, i) <= bound
  }

  /** The line number call `i` carries. */
  function LineOf(calls: seq<Call>, i: nat): nat
    requires i < |calls|
  {
    calls[i].lineno
  }

  /**
   * The parse never loses calls, and once it reports an error, that line is
   * the last one handled: no later line reaches the handler.
   */
  lemma ParseStopsAtFirstError(rest: string, h: Handler, lineno: nat, st: IniState)
    requires st.error == 0 && lineno >= 1
    requires CallsUpTo(st.calls, lineno - 1)
    ensures var r := ParseFrom(rest, h, lineno, st);
      st.calls <= r.calls &&
      (r.error == 0 || lineno <= r.error) &&
      (r.error != 0 ==> CallsUpTo(r.calls, r.error))
  {
    ParseKeepsCalls(rest, h, lineno, st);
    ParseErrorNotBefore(rest, h, lineno, st);
    ParseErrorIsLast(rest, h, lineno, st);
  }

  lemma {:induction false} ParseKeepsCalls(rest: string, h: Handler, lineno: nat, st: IniState)
    ensures st.calls <= ParseFrom(rest, h, lineno, st).calls
    decreases |rest|
  {
    hide Step;
    if rest != [] {
      var n := ChunkLen(rest);
      var st' := Step(st, h, rest[..n], lineno);
      ParseFromUnfold(rest, h, lineno, st);
      StepExtends(st, h, rest[..n], lineno);
      if st'.error == 0 {
        ParseKeepsCalls(rest[n..], h, lineno + 1, st');
      }
    }
  }

  lemma {:induction false} ParseErrorNotBefore(rest: string, h: Handler, lineno: nat, st: IniState)
    requires st.error == 0
    ensures var r := ParseFrom(rest, h, lineno, st);
      r.error == 0 || lineno <= r.error
    decreases |rest|
  {
    hide Step;
    if rest != [] {
      var n := ChunkLen(rest);
      var st' := Step(st, h, rest[..n], lineno);
      ParseFromUnfold(rest, h, lineno, st);
      if st'.error == 0 {
        ParseErrorNotBefore(rest[n..], h, lineno + 1, st');
      }
    }
  }

  lemma {:induction false} ParseErrorIsLast(rest: string, h: Handler, lineno: nat, st: IniState)
    requires st.error == 0 && lineno >= 1
    requires CallsUpTo(st.calls, lineno - 1)
    ensures var r := ParseFrom(rest, h, lineno, st);
      r.error != 0 ==> CallsUpTo(r.calls, r.error)
    decreases |rest|
  {
    hide Step;
    if rest != [] {
      var n := ChunkLen(rest);
      var st' := Step(st, h, rest[..n], lineno);
      ParseFromUnfold(rest, h, lineno, st);
      StepKeepsCalls(st, h, rest[..n], lineno);
      if st'.error == 0 {
        ParseErrorIsLast(rest[n..], h, lineno + 1, st');
      }
    }
  }

  lemma StepExtends(st: IniState, h: Handler, chunk: string, lineno: nat)
    ensures st.calls <= Step(st, h, chunk, lineno).calls
  {
  }

  lemma StepKeepsCalls(st: IniState, h: Handler, chunk: string, lineno: nat)
    requires lineno >= 1 && CallsUpTo(st.calls, lineno - 1)
    ensures st.calls <= Step(st, h, chunk, lineno).calls
    ensures CallsUpTo(Step(st, h, chunk, lineno).calls, lineno)
  {
    var r := Step(st, h, chunk, lineno);
    if r.calls != st.calls {
      forall i | 0 <= i < |r.calls|
        ensures LineOf(r.calls, i) <= lineno
      {
        if i < |st.calls| {
          assert r.calls[i] == st.calls[i];
          assert LineOf(st.calls, i) <= lineno - 1;
        }
      }
    }
  }

  // ------------------------------------------------------------ imperative

  /** `rstrip`: scans back from the end, cutting whitespace. */
  method Rstrip(s: string) returns (r: string)
    ensures r == TrimRight(s)
  {
    var p := |s|;
    assert s[..p] == s;
    while p > 0 && IsSpace(s[p - 1])
      invariant 0 <= p <= |s|
      invariant TrimRight(s) == TrimRight(s[..p])
    {
      assert s[..p][..p - 1] == s[..p - 1];
      p := p - 1;
    }
    assert s[..p] == TrimRight(s[..p]);
    r := s[..p];
  }

  /** `lskip`: the index of the first non-whitespace character. */
  method Lskip(s: string) returns (k: nat)
    ensures k == SpaceRun(s)
  {
    k := 0;
    while k < |s| && IsSpace(s[k])
      invariant 0 <= k <= |s|
      invariant SpaceRun(s) == k + SpaceRun(s[k..])
    {
      assert s[k..][1..] == s[k + 1..];
      k := k + 1;
    }
  }

  /** `find_char_or_comment`: tracks whether the previous character was whitespace. */
  method FindCharOrComment(s: string, c: char) returns (k: nat)
    ensures k == CharOrComment(s, c)
  {
    var wasSpace := false;
    k := 0;
    while k < |s| && s[k] != c && !(wasSpace && s[k] == ';')
      invariant 0 <= k <= |s|
      invariant wasSpace == (k > 0 && IsSpace(s[k - 1]))
      invariant CharOrComment(s, c) == CharOrCommentFrom(s, c, k)
    {
      wasSpace := IsSpace(s[k]);
      k := k + 1;
    }
  }

  /** The start of the `rstrip` + `lskip` pass over one line. */
  method TrimLine(chunk: string, lineno: nat) returns (s: string, moved: bool)
    ensures (s, moved) == LineStart(chunk, lineno)
  {
    var t := CStr(chunk);
    var bom := lineno == 1 && |t| >= 3 && t[..3] == BOM;
    var u := Rstrip(if bom then t[3..] else t);
    var k := Lskip(u);
    s := u[k..];
    moved := bom || k > 0;
  }

  method ParseSection(st: IniState, s: string, lineno: nat) returns (r: IniState)
    requires s != []
    ensures r == SectionHeader(st, s, lineno)
  {
    var e := FindCharOrComment(s[1..], ']');
    if e < |s| - 1 && s[1 + e] == ']' {
      return st.(section := Strncpy0(s[1..][..e], MAX_SECTION), prevName := "");
    } else if st.error == 0 {
      return st.(error := lineno);
    }
    return st;
  }

  method FindSeparator(s: string) returns (e: nat)
    ensures e == Separator(s)
  {
    e := FindCharOrComment(s, '=');
    if !(e < |s| && s[e] == '=') {
      e := FindCharOrComment(s, ':');
    }
  }

  method ParseValue(v0: string) returns (value: string)
    ensures value == ValueText(v0)
  {
    var cut := FindCharOrComment(v0, ';');
    var v1 := v0[..cut];
    var lead := Lskip(v1);
    var v2 := Rstrip(v1[lead..]);
    value := Unquote(v2);
  }

  method ParseNameValue(st: IniState, h: Handler, s: string, lineno: nat) returns (r: IniState)
    requires s != []
    ensures r == NameValue(st, h, s, lineno)
  {
    var e := FindSeparator(s);
    if e < |s| && (s[e] == '=' || s[e] == ':') {
      var name := Rstrip(s[..e]);
      var value := ParseValue(s[e + 1..]);
      return Handle(st.(prevName := Strncpy0(name, MAX_NAME)), h, Call(st.section, name, value, lineno));
    } else if st.error == 0 {
      return st.(error := lineno);
    }
    return st;
  }

  /** The loop body of `ini_parse_file` for one line read by `fgets`. */
  method ParseLine(st: IniState, h: Handler, chunk: string, lineno: nat) returns (r: IniState)
    ensures r == Step(st, h, chunk, lineno)
  {
    var s, moved := TrimLine(chunk, lineno);
    if s != [] && (s[0] == ';' || s[0] == '#') {
      r := st;
    } else if st.prevName != [] && s != [] && moved {
      r := Handle(st, h, Call(st.section, st.prevName, s, lineno));
    } else if s != [] && s[0] == '[' {
      r := ParseSection(st, s, lineno);
    } else if s != [] {
      r := ParseNameValue(st, h, s, lineno);
    } else {
      r := st;
    }
  }

  /**
   * `ini_parse_file`: 0 when every line was accepted, else the number of the
   * first failing line, after which nothing more is read; `calls` lists the
   * handler calls in order.
   */
  method ParseFile(content: string, h: Handler) returns (error: nat, calls: seq<Call>)
    ensures error == ParseFrom(content, h, 1, INIT).error
    ensures calls == ParseFrom(content, h, 1, INIT).calls
    ensures error != 0 ==> CallsUpTo(calls, error)
  {
    hide Step;
    var st := INIT;
    var pos := 0;
    var lineno := 0;
    assert content[pos..] == content;
    while pos < |content|
      invariant 0 <= pos <= |content|
      invariant st.error == 0
      invariant ParseFrom(content, h, 1, INIT) == ParseFrom(content[pos..], h, lineno + 1, st)
      decreases |content| - pos
    {
      var rest := content[pos..];
      var n := ChunkLen(rest);
      lineno := lineno + 1;
      ghost var before := st;
      st := ParseLine(st, h, rest[..n], lineno);
      ParseFromUnfold(rest, h, lineno, before);
      assert rest[n..] == content[pos + n..];
      pos := pos + n;
      if st.error != 0 {
        assert ParseFrom(content, h, 1, INIT) == st;
        break;
      }
    }
    assert st.error == 0 ==> content[pos..] == [];
    ParseStopsAtFirstError(content, h, 1, INIT);
    return st.error, st.calls;
  }

  lemma ParseFromUnfold(rest: string, h: Handler, lineno: nat, st: IniState)
    requires rest != []
    ensures var n := ChunkLen(rest);
      var st' := Step(st, h, rest[..n], lineno);
      ParseFrom(rest, h, lineno, st) == if st'.error != 0 then st' else ParseFrom(rest[n..], h, lineno + 1, st')
  {
  }

  /** `ini_parse`: -1 when the file cannot be opened, else as `ParseFile`. */
  method Parse(file: Option<string>, h: Handler) returns (error: int, calls: seq<Call>)
    ensures file.None? ==> error == -1 && calls == []
    ensures file.Some? ==> error == ParseFrom(file.value, h, 1, INIT).error &&
                           calls == ParseFrom(file.value, h, 1, INIT).calls
  {
    if file.None? {
      return -1, [];
    }
    var e, c := ParseFile(file.value, h);
    return e, c;
  }
}
