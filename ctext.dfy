// The C library string routines the player's file-name logic relies on:
// `strrchr` and `strcasecmp` in the C locale. A C string is the `seq<char>`
// of the characters before its terminating NUL.

module CText {
  import opened Bytes

  /** `strrchr(s, c)`: the index of the last `c` in `s`, if any. */
  function LastIndex(s: string, c: char): (r: Option<nat>)
    ensures r.Some? ==> r.value < |s| && s[r.value] == c && c !in s[r.value + 1..]
    ensures r.None? <==> c !in s
  {
    if |s| == 0 then None
    else if s[|s| - 1] == c then Some(|s| - 1)
    else
      var r := LastIndex(s[..|s| - 1], c);
      assert s == s[..|s| - 1] + [s[|s| - 1]];
      if r.Some? then
        assert s[r.value + 1..] == s[..|s| - 1][r.value + 1..] + [s[|s| - 1]];
        r
      else r
  }

  /** The last `c` is found wherever it sits. */
  lemma LastIndexAt(s: string, c: char, k: nat)
    requires k < |s| && s[k] == c && c !in s[k + 1..]
    ensures LastIndex(s, c) == Some(k)
  {
    var r := LastIndex(s, c);
    assert forall j :: r.value < j < |s| ==> s[j] != c by {
      forall j | r.value < j < |s|
        ensures s[j] != c
      {
        assert s[j] == s[r.value + 1..][j - r.value - 1];
      }
    }
    assert forall j :: k < j < |s| ==> s[j] != c by {
      forall j | k < j < |s|
        ensures s[j] != c
      {
        assert s[j] == s[k + 1..][j - k - 1];
      }
    }
  }

  /** `tolower` in the C locale: only 'A'..'Z' change. */
  function Lower(c: char): char
  {
    if 'A' <= c <= 'Z' then (c as int + 32) as char else c
  }

  function LowerAll(s: string): (r: string)
    ensures |r| == |s| && forall i :: 0 <= i < |s| ==> r[i] == Lower(s[i])
  {
    if |s| == 0 then [] else [Lower(s[0])] + LowerAll(s[1..])
  }

  /**
   * The sign of `strcasecmp(a, b)`: the first position where the lowered
   * characters differ decides, and a string that ends first (its NUL) is the
   * smaller one.
   */
  function CaseCompare(a: string, b: string): (r: int)
    ensures -1 <= r <= 1
  {
    if |a| == 0 && |b| == 0 then 0
    else if |a| == 0 then -1
    else if |b| == 0 then 1
    else if Lower(a[0]) < Lower(b[0]) then -1
    else if Lower(a[0]) > Lower(b[0]) then 1
    else CaseCompare(a[1..], b[1..])
  }

  /** `strcasecmp(a, b) == 0` exactly when the strings agree once lowered. */
  lemma {:induction false} CaseCompareZeroIff(a: string, b: string)
    ensures CaseCompare(a, b) == 0 <==> LowerAll(a) == LowerAll(b)
  {
    if |a| > 0 && |b| > 0 {
      CaseCompareZeroIff(a[1..], b[1..]);
      assert LowerAll(a) == [Lower(a[0])] + LowerAll(a[1..]);
      assert LowerAll(b) == [Lower(b[0])] + LowerAll(b[1..]);
      if LowerAll(a) == LowerAll(b) {
        assert LowerAll(a)[1..] == LowerAll(a[1..]);
        assert LowerAll(b)[1..] == LowerAll(b[1..]);
      }
    } else if |a| > 0 || |b| > 0 {
      assert |LowerAll(a)| != |LowerAll(b)|;
    }
  }

  /** Swapping the arguments flips the sign. */
  lemma {:induction false} CaseCompareAntisymmetric(a: string, b: string)
    ensures CaseCompare(a, b) == -CaseCompare(b, a)
  {
    if |a| > 0 && |b| > 0 && Lower(a[0]) == Lower(b[0]) {
      CaseCompareAntisymmetric(a[1..], b[1..]);
    }
  }

  /** The order `strcasecmp` induces is transitive, so `qsort` can use it. */
  lemma {:induction false} CaseCompareTransitive(a: string, b: string, c: string)
    requires CaseCompare(a, b) <= 0 && CaseCompare(b, c) <= 0
    ensures CaseCompare(a, c) <= 0
  {
    if |a| > 0 && |b| > 0 && |c| > 0 && Lower(a[0]) == Lower(b[0]) == Lower(c[0]) {
      CaseCompareTransitive(a[1..], b[1..], c[1..]);
    }
  }
}
