// Byte readers and timing arithmetic of console_player/util.c; the readers
// are the same text in v0.903/console_player/util.c.

module Util {
  import opened Bytes

  const TWO64: int := 0x1_0000_0000_0000_0000

  /** `read_le32`: four bytes from memory, least-significant first. */
  function ReadLe32(p: seq<byte>): (v: u32)
    requires |p| >= 4
    ensures Le32Bytes(v) == p[..4]
  {
    Le32AtRoundTrip(p, 0);
    Le32At(p, 0)
  }

  /** `read_le32` undoes the little-endian serialisation of any 32-bit value. */
  lemma ReadLe32OfBytes(v: u32)
    ensures ReadLe32(Le32Bytes(v)) == v
  {
    Le32BytesRoundTrip(v);
  }

  /**
   * `read_2byte_le`: -1 when fewer than two bytes remain (the caller's value
   * is left as it was), else 0 with the little-endian value. The stream moves
   * past whatever was read, as `fread` does.
   */
  method Read2ByteLe(fp: Stream, value: u16) returns (rc: int, value': u16)
    modifies fp
    ensures old(fp.pos) + 2 <= |fp.data| ==>
      rc == 0 && value' == Le16(fp.data[old(fp.pos)], fp.data[old(fp.pos) + 1])
    ensures old(fp.pos) + 2 > |fp.data| ==> rc == -1 && value' == value
    ensures fp.pos == old(fp.pos) + |old(fp.Peek(2))|
  {
    var buf := fp.Read(2);
    if |buf| != 2 {
      return -1, value;
    }
    return 0, Le16(buf[0], buf[1]);
  }

  /** `read_4byte_le`: as `Read2ByteLe`, for four bytes. */
  method Read4ByteLe(fp: Stream, value: u32) returns (rc: int, value': u32)
    modifies fp
    ensures old(fp.pos) + 4 <= |fp.data| ==> rc == 0 && value' == Le32At(fp.data, old(fp.pos))
    ensures old(fp.pos) + 4 > |fp.data| ==> rc == -1 && value' == value
    ensures fp.pos == old(fp.pos) + |old(fp.Peek(4))|
  {
    var buf := fp.Read(4);
    if |buf| != 4 {
      return -1, value;
    }
    return 0, Le32(buf[0], buf[1], buf[2], buf[3]);
  }

  // ------------------------------------------------- 7-bit variable length

  function Pow2(n: nat): (p: nat)
    ensures p >= 1
  {
    if n == 0 then 1 else 2 * Pow2(n - 1)
  }

  lemma Pow2Add(a: nat, b: nat)
    ensures Pow2(a + b) == Pow2(a) * Pow2(b)
  {
    if a > 0 {
      Pow2Add(a - 1, b);
    }
  }

  /**
   * What `(uint64_t)(b & 0x7F) << shift` contributes. A group at shift 64 or
   * more (an eleventh byte) is an undefined shift in C; it contributes nothing here.
   */
  function Group(b: byte, shift: nat): nat
  {
    if shift < 64 then b % 0x80 * Pow2(shift) else 0
  }

  /** The sum of the groups of `s`, the first at bit `shift`. */
  function Groups(s: seq<byte>, shift: nat): (g: nat)
    ensures s == [] ==> g == 0
  {
    if s == [] then 0 else Group(s[0], shift) + Groups(s[1..], shift + 7)
  }

  /** Index of the byte that ends a value: the first without the 0x80 continuation bit. */
  function VarintEnd(s: seq<byte>): (e: Option<nat>)
    ensures e.Some? ==> (e.value < |s| && s[e.value] < 0x80 &&
                         forall i :: 0 <= i < e.value ==> s[i] >= 0x80)
    ensures e.None? ==> forall i :: 0 <= i < |s| ==> s[i] >= 0x80
  {
    if s == [] then None
    else if s[0] < 0x80 then Some(0)
    else match VarintEnd(s[1..])
      case None => None
      case Some(e) => Some(e + 1)
  }

  /**
   * `read_variable_length_7bit_le`: reads groups up to and including the first
   * byte without bit 0x80; the value is their little-endian sum modulo 2^64
   * (the groups occupy disjoint bits, so the sum is the source's bitwise or).
   * End of file before that byte yields 0, the partial groups discarded.
   */
  method ReadVarint(fp: Stream) returns (r: nat)
    modifies fp
    ensures var rest := if old(fp.pos) < |fp.data| then fp.data[old(fp.pos)..] else [];
      match VarintEnd(rest)
      case Some(e) => r == Groups(rest[..e + 1], 0) % TWO64 && fp.pos == old(fp.pos) + e + 1
      case None => r == 0
  {
    hide Groups, Group, VarintEnd;
    ghost var start := fp.pos;
    ghost var rest := if fp.pos < |fp.data| then fp.data[fp.pos..] else [];
    assert rest[..0] == [];
    var result := 0;
    var shift := 0;
    ghost var n := 0;
    while true
      invariant fp.pos == start + n && n <= |rest| && shift == 7 * n
      invariant forall i :: 0 <= i < n ==> rest[i] >= 0x80
      invariant result == Groups(rest[..n], 0) % TWO64
      decreases |rest| - n
    {
      var b := fp.ReadByte();
      if b.None? {
        // every byte so far carried the continuation bit
        assert n == |rest|;
        return 0;
      }
      assert b.value == rest[n];
      GroupsStep(rest, n, result);
      result := (result + Group(b.value, shift)) % TWO64;
      shift := shift + 7;
      if b.value < 0x80 {
        VarintEndAt(rest, n);
        return result;
      }
      n := n + 1;
    }
  }

  /** One more byte read: its group added to the running value, modulo 2^64. */
  lemma GroupsStep(rest: seq<byte>, n: nat, result: nat)
    requires n < |rest| && result == Groups(rest[..n], 0) % TWO64
    ensures (result + Group(rest[n], 7 * n)) % TWO64 == Groups(rest[..n + 1], 0) % TWO64
  {
    GroupsSnoc(rest[..n], rest[n], 0);
    assert rest[..n + 1] == rest[..n] + [rest[n]];
    ModAdd(Groups(rest[..n], 0), Group(rest[n], 7 * n));
  }

  lemma ModAdd(a: nat, g: nat)
    ensures (a % TWO64 + g) % TWO64 == (a + g) % TWO64
  {
  }

  lemma ModAdd32(a: nat, g: nat)
    ensures (a % TWO32 + g) % TWO32 == (a + g) % TWO32
  {
  }

  /** Appending a byte to the groups adds its group at the next shift. */
  lemma {:induction false} GroupsSnoc(s: seq<byte>, b: byte, shift: nat)
    ensures Groups(s + [b], shift) == Groups(s, shift) + Group(b, shift + 7 * |s|)
  {
    if s != [] {
      assert (s + [b])[1..] == s[1..] + [b];
      GroupsSnoc(s[1..], b, shift + 7);
    }
  }

  lemma {:induction false} VarintEndAt(s: seq<byte>, n: nat)
    requires n < |s| && s[n] < 0x80
    requires forall i :: 0 <= i < n ==> s[i] >= 0x80
    ensures VarintEnd(s) == Some(n)
  {
    if n > 0 {
      VarintEndAt(s[1..], n - 1);
    }
  }

  /** The encoding the reader undoes: 7-bit groups, low first, 0x80 on all but the last. */
  function EncodeVarint(v: nat): (s: seq<byte>)
    ensures |s| >= 1
  {
    if v < 0x80 then [v] else [v % 0x80 + 0x80] + EncodeVarint(v / 0x80)
  }

  lemma {:induction false} EncodeVarintEnds(v: nat)
    ensures VarintEnd(EncodeVarint(v)) == Some(|EncodeVarint(v)| - 1)
  {
    if v >= 0x80 {
      EncodeVarintEnds(v / 0x80);
      VarintEndCons(v % 0x80 + 0x80, EncodeVarint(v / 0x80));
    }
  }

  /** A byte with the continuation bit puts the end one byte further on. */
  lemma VarintEndCons(b: byte, t: seq<byte>)
    requires b >= 0x80
    ensures VarintEnd([b] + t) == if VarintEnd(t).Some? then Some(VarintEnd(t).value + 1) else None
  {
    assert ([b] + t)[1..] == t;
  }

  lemma {:induction false} EncodeVarintLength(v: nat, k: nat)
    requires v < Pow2(7 * k) && k >= 1
    ensures |EncodeVarint(v)| <= k
  {
    if v >= 0x80 {
      assert k >= 2;
      Pow2Add(7, 7 * (k - 1));
      assert Pow2(7) == 0x80;
      EncodeVarintLength(v / 0x80, k - 1);
    }
  }

  lemma {:induction false} GroupsOfEncode(v: nat, shift: nat)
    requires shift + 7 * (|EncodeVarint(v)| - 1) < 64
    ensures Groups(EncodeVarint(v), shift) == v * Pow2(shift)
  {
    var s := EncodeVarint(v);
    var p := Pow2(shift);
    if v >= 0x80 {
      assert s[1..] == EncodeVarint(v / 0x80);
      GroupsOfEncode(v / 0x80, shift + 7);
      assert Pow2(shift + 7) == p * 0x80 by {
        Pow2Add(shift, 7);
        assert Pow2(7) == 0x80;
      }
      assert (v % 0x80 + 0x80) % 0x80 == v % 0x80;
      assert Group(s[0], shift) == v % 0x80 * p;
      assert Groups(s, shift) == v % 0x80 * p + v / 0x80 * (p * 0x80);
      Recompose(v, p);
    } else {
      assert Groups(s, shift) == Group(v, shift);
    }
  }

  lemma Recompose(v: nat, p: nat)
    ensures (v % 0x80) * p + (v / 0x80) * (p * 0x80) == v * p
  {
    var lo, hi := v % 0x80, v / 0x80;
    assert v == lo + hi * 0x80;
    assert (lo + hi * 0x80) * p == lo * p + hi * 0x80 * p;
  }

  /** Reading back the encoding of any 64-bit value yields that value. */
  lemma VarintRoundTrip(v: nat)
    requires v < TWO64
    ensures var s := EncodeVarint(v);
      VarintEnd(s) == Some(|s| - 1) && Groups(s, 0) % TWO64 == v
  {
    EncodeVarintEnds(v);
    Pow2Seventy();
    EncodeVarintLength(v, 10);
    GroupsOfEncode(v, 0);
    assert Groups(EncodeVarint(v), 0) == v by {
      assert Pow2(0) == 1;
    }
  }

  lemma Pow2Is64()
    ensures Pow2(64) == TWO64
  {
    Pow2Byte(0);
    Pow2Byte(8);
    Pow2Byte(16);
    Pow2Byte(24);
    Pow2Byte(32);
    Pow2Byte(40);
    Pow2Byte(48);
    Pow2Byte(56);
  }

  lemma Pow2Byte(n: nat)
    ensures Pow2(n + 8) == 0x100 * Pow2(n)
  {
    Pow2Add(n, 8);
    assert Pow2(8) == 0x100;
  }

  lemma Pow2Seventy()
    ensures Pow2(70) >= TWO64
  {
    Pow2Is64();
    Pow2Add(64, 6);
  }

  // ------------------------------------------------------------ low/high byte

  /** `low_byte`. */
  function LowByte(v: u32): byte { v % 0x100 }

  /** `high_byte`. */
  function HighByte(v: u32): byte { v / 0x100 % 0x100 }

  /** The two bytes recompose the low 16 bits of the value. */
  lemma ByteSplit(v: u32)
    ensures HighByte(v) * 0x100 + LowByte(v) == v % 0x1_0000
  {
    var q := v / 0x100;
    var r := v % 0x100;
    assert v == (q / 0x100) * 0x1_0000 + ((q % 0x100) * 0x100 + r);
    ModUnique(v, q / 0x100, (q % 0x100) * 0x100 + r);
  }

  lemma ModUnique(v: int, a: int, b: int)
    requires 0 <= b < 0x1_0000 && v == a * 0x1_0000 + b
    ensures v % 0x1_0000 == b
  {
  }

  // ----------------------------------------------------------- sleep split

  /** How `yasp_usleep` waits on Windows. */
  datatype Wait =
    | NoWait
    | Spin(us: nat)                           // busy-wait only
    | SleepThenSpin(ms: nat, us: nat)         // `Sleep(ms)`, then busy-wait

  const SPIN_THRESHOLD_US: nat := 2000

  /**
   * `yasp_usleep` after the speed scaling (`final_usec`): up to 2 ms is spun;
   * above that the whole milliseconds beyond the last 2 ms are slept, and the
   * rest, between 2 and 3 ms, is spun, the two adding up to the request.
   */
  function SplitWait(finalUsec: u32): (w: Wait)
    ensures finalUsec == 0 <==> w == NoWait
    ensures 0 < finalUsec <= SPIN_THRESHOLD_US ==> w == Spin(finalUsec)
    ensures finalUsec > SPIN_THRESHOLD_US ==> (w.SleepThenSpin? &&
      w.ms * 1000 + w.us == finalUsec && SPIN_THRESHOLD_US <= w.us < SPIN_THRESHOLD_US + 1000)
  {
    if finalUsec == 0 then NoWait
    else if finalUsec <= SPIN_THRESHOLD_US then Spin(finalUsec)
    else
      var sleepMs := (finalUsec - SPIN_THRESHOLD_US) / 1000;
      SleepThenSpin(sleepMs, finalUsec - sleepMs * 1000)
  }
}
