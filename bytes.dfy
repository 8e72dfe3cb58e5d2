// Shared byte-level vocabulary: fixed-width unsigned integers, little-endian
// assembly, and a model of a C `FILE` opened for reading over a byte string.

module Bytes {

  type byte = x: int | 0 <= x < 0x100
  type u16 = x: int | 0 <= x < 0x1_0000
  type u32 = x: int | 0 <= x < 0x1_0000_0000

  const TWO32: int := 0x1_0000_0000

  datatype Option<T> = None | Some(value: T)

  function Min(a: int, b: int): int { if a <= b then a else b }
  function Max(a: int, b: int): int { if a >= b then a else b }

  /** `n` zero bytes. */
  function Zeros(n: nat): (z: seq<byte>)
    ensures |z| == n && forall i :: 0 <= i < n ==> z[i] == 0
  {
    seq(n, i => 0)
  }

  /** Value of two bytes read least-significant first. */
  function Le16(lo: byte, hi: byte): (r: u16)
    ensures r % 0x100 == lo && r / 0x100 == hi
  {
    lo + hi * 0x100
  }

  /** Value of four bytes read least-significant first. */
  function Le32(b0: byte, b1: byte, b2: byte, b3: byte): (r: u32)
  {
    b0 + b1 * 0x100 + b2 * 0x1_0000 + b3 * 0x100_0000
  }

  /** The bytes of a little-endian word are its base-256 digits. */
  lemma Le32Digits(b0: byte, b1: byte, b2: byte, b3: byte)
    ensures var r := Le32(b0, b1, b2, b3);
      r % 0x100 == b0 && r / 0x100 % 0x100 == b1 && r / 0x1_0000 % 0x100 == b2 && r / 0x100_0000 == b3
  {
    var hi := b2 + b3 * 0x100;
    var mid := b1 + hi * 0x100;
    var r := Le32(b0, b1, b2, b3);
    assert r == b0 + mid * 0x100;
    DigitSplit(b0, mid);
    DigitSplit(b1, hi);
    DigitSplit(b2, b3);
    assert r == (b0 + b1 * 0x100) + hi * 0x1_0000;
    Split16(b0 + b1 * 0x100, hi);
    assert r == (b0 + b1 * 0x100 + b2 * 0x1_0000) + b3 * 0x100_0000;
    Split24(b0 + b1 * 0x100 + b2 * 0x1_0000, b3);
  }

  lemma DigitSplit(lo: byte, hi: nat)
    ensures (lo + hi * 0x100) % 0x100 == lo && (lo + hi * 0x100) / 0x100 == hi
  {
  }

  lemma Split16(lo: nat, hi: nat)
    requires lo < 0x1_0000
    ensures (lo + hi * 0x1_0000) / 0x1_0000 == hi
  {
  }

  lemma Split24(lo: nat, hi: nat)
    requires lo < 0x100_0000
    ensures (lo + hi * 0x100_0000) / 0x100_0000 == hi
  {
  }

  function Le16At(s: seq<byte>, i: nat): u16
    requires i + 2 <= |s|
  {
    Le16(s[i], s[i + 1])
  }

  function Le32At(s: seq<byte>, i: nat): u32
    requires i + 4 <= |s|
  {
    Le32(s[i], s[i + 1], s[i + 2], s[i + 3])
  }

  /** The four bytes of `v`, least-significant first. */
  function Le32Bytes(v: u32): (r: seq<byte>)
    ensures |r| == 4
  {
    [v % 0x100, v / 0x100 % 0x100, v / 0x100 / 0x100 % 0x100, v / 0x100 / 0x100 / 0x100]
  }

  lemma Le32BytesRoundTrip(v: u32)
    ensures Le32At(Le32Bytes(v), 0) == v
  {
    var a := v / 0x100;
    var b := a / 0x100;
    var c := b / 0x100;
    assert v == v % 0x100 + 0x100 * a;
    assert a == a % 0x100 + 0x100 * b;
    assert b == b % 0x100 + 0x100 * c;
  }

  lemma Le32AtRoundTrip(s: seq<byte>, i: nat)
    requires i + 4 <= |s|
    ensures Le32Bytes(Le32At(s, i)) == s[i..i + 4]
  {
    Le32Digits(s[i], s[i + 1], s[i + 2], s[i + 3]);
  }

  /** A word read from a copy of four bytes is the word read in place. */
  lemma Le32AtSlice(s: seq<byte>, i: nat, t: seq<byte>)
    requires i + 4 <= |s| && t == s[i..i + 4]
    ensures Le32At(t, 0) == Le32At(s, i)
  {
    assert t[0] == s[i] && t[1] == s[i + 1] && t[2] == s[i + 2] && t[3] == s[i + 3];
  }

  /** A slice of a prefix is the same slice of the whole. */
  lemma SliceOfPrefix<T>(s: seq<T>, p: nat, i: nat, j: nat)
    requires i <= j <= p <= |s|
    ensures s[..p][i..j] == s[i..j]
  {
  }

  /** `fread`'s position after asking for `n` bytes at `pos`. */
  function After(data: seq<byte>, pos: nat, n: nat): (p: nat)
    ensures pos <= p <= pos + n
  {
    if pos >= |data| then pos else Min(pos + n, |data|)
  }

  /**
   * A C stream opened for binary reading. `pos` may lie beyond the end of
   * `data` after a seek; reads there return nothing, as `fread` does at EOF.
   */
  class Stream {
    const data: seq<byte>
    var pos: nat

    constructor (data: seq<byte>)
      ensures this.data == data && pos == 0
    {
      this.data := data;
      pos := 0;
    }

    /** The bytes an `fread` of `n` bytes would return now. */
    function Peek(n: nat): (r: seq<byte>)
      reads this
      ensures |r| <= n
      ensures pos + |r| <= |data| || r == []
    {
      if pos >= |data| then [] else data[pos..Min(pos + n, |data|)]
    }

    method Read(n: nat) returns (got: seq<byte>)
      modifies this
      ensures got == old(Peek(n))
      ensures pos == old(pos) + |got| == After(data, old(pos), n)
    {
      got := Peek(n);
      pos := pos + |got|;
    }

    /** `fgetc`-style single byte read; `None` at end of file. */
    method ReadByte() returns (b: Option<byte>)
      modifies this
      ensures old(pos) < |data| ==> b == Some(data[old(pos)]) && pos == old(pos) + 1
      ensures old(pos) >= |data| ==> b == None && pos == old(pos)
    {
      if pos < |data| {
        b := Some(data[pos]);
        pos := pos + 1;
      } else {
        b := None;
      }
    }

    method Seek(p: nat)
      modifies this
      ensures pos == p
    {
      pos := p;
    }
  }
}
