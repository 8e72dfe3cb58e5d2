// The SPFM write buffer of v0.83/console_player/spfm.c: register writes are
// encoded as 3- or 4-byte frames into a 64 KiB buffer that is sent to the
// interface in chunks of at most 4096 bytes. The FTDI transport is a
// parameter (`Device`): given a chunk, it answers with a status and a count
// of bytes written. What reaches the device, and the sleeps taken, are
// recorded as `Event`s.

module Spfm {
  import opened Bytes

  const BUF_SIZE: nat := 0x10000         // `SPFM_WRITE_BUF_SIZE`, 1024 * 64
  const CHUNK: nat := 4096
  const HW_WAIT_THRESHOLD: nat := 10
  const WAIT_BYTE: byte := 0x80          // one-sample hardware wait on SPFM_Light

  /** `SPFM_TYPE`. */
  datatype Kind = UnknownKind | Spfm | Light

  /** What `FT_Write` reports: its status is `FT_OK`, and the bytes it wrote. */
  datatype Reply = Reply(ok: bool, written: nat)
  type Device = seq<byte> -> Reply

  /** A chunk handed to `FT_Write`, or a `yasp_usleep` of that many microseconds. */
  datatype Event = Sent(chunk: seq<byte>) | Slept(us: nat)

  /** The transport: `FT_Write`, whether `ftHandle` is open, and `spfm_type`. */
  datatype Conn = Conn(device: Device, handle: bool, kind: Kind)

  /** The abstract state: the buffered bytes and what has happened so far. */
  datatype Link = Link(pending: seq<byte>, events: seq<Event>)

  /** A register write as `spfm_reg_t` (port, addr, data). */
  datatype Reg = Reg(port: byte, addr: byte, data: byte)

  // ------------------------------------------------------------------ frames

  /** `spfm_write_reg`'s frame for one register write. */
  function Frame(kind: Kind, slot: byte, port: byte, addr: byte, data: byte): (f: seq<byte>)
    requires kind != UnknownKind
    ensures kind == Light ==> |f| == 4
    ensures kind == Spfm ==> |f| == 3
  {
    if kind == Light then [slot % 2, port % 8 * 2, addr, data]
    else [slot % 8 * 16 + port % 4, addr, data]
  }

  /** The slot, port, address and data a frame carries, as the interface reads them. */
  function FrameFields(kind: Kind, f: seq<byte>): (r: (nat, nat, byte, byte))
    requires kind == Light ==> |f| == 4
    requires kind == Spfm ==> |f| == 3
    requires kind != UnknownKind
  {
    if kind == Light then (f[0], f[1] / 2, f[2], f[3])
    else (f[0] / 16, f[0] % 16, f[1], f[2])
  }

  /**
   * A frame delivers the address and data unchanged, and the slot and port
   * cut to the widths the interface has: one slot bit and three port bits on
   * SPFM_Light, three slot bits and two port bits on SPFM.
   */
  lemma FrameRoundTrip(kind: Kind, slot: byte, port: byte, addr: byte, data: byte)
    requires kind != UnknownKind
    ensures FrameFields(kind, Frame(kind, slot, port, addr, data)) ==
      if kind == Light then (slot % 2, port % 8, addr, data) else (slot % 8, port % 4, addr, data)
  {
  }

  /** `spfm_write_data`'s frame on SPFM_Light: slot bit, command 0x20, data. */
  function DataFrame(slot: byte, data: byte): (f: seq<byte>)
    ensures |f| == 3 && f[0] <= 1 && f[1] == 0x20 && f[2] == data
  {
    [slot % 2, 0x20, data]
  }

  /** `n` one-sample waits. */
  function Waits(n: nat): (s: seq<byte>)
    ensures |s| == n && forall i :: 0 <= i < n ==> s[i] == WAIT_BYTE
  {
    if n == 0 then [] else Waits(n - 1) + [WAIT_BYTE]
  }

  // ------------------------------------------------------------------ flush

  datatype FlushResult = FlushResult(ok: bool, chunks: seq<seq<byte>>)

  /** The chunk `spfm_flush` sends when `total` bytes of `data` are already written. */
  function NextChunk(data: seq<byte>, total: nat): (c: seq<byte>)
    requires total < |data|
    ensures 1 <= |c| <= CHUNK && total + |c| <= |data| && c == data[total..total + |c|]
    ensures |c| == if |data| - total > CHUNK then CHUNK else |data| - total
  {
    if total + CHUNK <= |data| then data[total..total + CHUNK] else data[total..]
  }

  /**
   * The `FT_Write` calls of `spfm_flush` from `total` on: chunks in order
   * until one fails or is written short, which ends the flush with false.
   */
  function FlushFrom(dev: Device, data: seq<byte>, total: nat): (r: FlushResult)
    requires total <= |data|
    decreases |data| - total
  {
    if total == |data| then FlushResult(true, [])
    else
      var c := NextChunk(data, total);
      var reply := dev(c);
      if !reply.ok || reply.written != |c| then FlushResult(false, [c])
      else
        var rest := FlushFrom(dev, data, total + |c|);
        FlushResult(rest.ok, [c] + rest.chunks)
  }

  /** A flush result with `sent` chunks in front. */
  function Preceded(sent: seq<seq<byte>>, r: FlushResult): FlushResult
  {
    FlushResult(r.ok, sent + r.chunks)
  }

  /** One pass of the flush loop: the chunk at `total` is sent and either ends the flush or is followed by the rest. */
  lemma FlushStep(dev: Device, data: seq<byte>, total: nat, c: seq<byte>, sent: seq<seq<byte>>)
    requires total < |data| && c == NextChunk(data, total)
    ensures dev(c).ok && dev(c).written == |c| ==>
      Preceded(sent, FlushFrom(dev, data, total)) == Preceded(sent + [c], FlushFrom(dev, data, total + |c|))
    ensures !(dev(c).ok && dev(c).written == |c|) ==>
      Preceded(sent, FlushFrom(dev, data, total)) == FlushResult(false, sent + [c])
  {
    var r := FlushFrom(dev, data, total);
    if dev(c).ok && dev(c).written == |c| {
      var rest := FlushFrom(dev, data, total + |c|);
      assert r == FlushResult(rest.ok, [c] + rest.chunks);
      assert sent + ([c] + rest.chunks) == (sent + [c]) + rest.chunks;
    } else {
      assert r == FlushResult(false, [c]);
    }
  }

  function Concat(cs: seq<seq<byte>>): seq<byte>
  {
    if cs == [] then [] else cs[0] + Concat(cs[1..])
  }

  lemma ConcatAppend(a: seq<seq<byte>>, b: seq<seq<byte>>)
    ensures Concat(a + b) == Concat(a) + Concat(b)
  {
    if a != [] {
      assert (a + b)[0] == a[0];
      assert (a + b)[1..] == a[1..] + b;
      ConcatAppend(a[1..], b);
    } else {
      assert a + b == b;
    }
  }

  /** Every chunk `spfm_flush` hands to `FT_Write` holds 1 to 4096 bytes. */
  lemma {:induction false} FlushChunkSizes(dev: Device, data: seq<byte>, total: nat)
    requires total <= |data|
    ensures var cs := FlushFrom(dev, data, total).chunks;
      forall i :: 0 <= i < |cs| ==> 1 <= |cs[i]| <= CHUNK
    decreases |data| - total
  {
    hide FlushFrom, NextChunk;
    FlushFromUnfold(dev, data, total);
    if total < |data| {
      var c := NextChunk(data, total);
      var reply := dev(c);
      if reply.ok && reply.written == |c| {
        FlushChunkSizes(dev, data, total + |c|);
        assert FlushFrom(dev, data, total).chunks == [c] + FlushFrom(dev, data, total + |c|).chunks;
      } else {
        assert FlushFrom(dev, data, total).chunks == [c];
      }
    }
  }

  /**
   * `spfm_flush` sends the buffer in order: the chunks concatenate to a
   * prefix of what was buffered, and to all of it when the flush succeeds.
   */
  lemma {:induction false} FlushSendsInOrder(dev: Device, data: seq<byte>, total: nat)
    requires total <= |data|
    ensures var r := FlushFrom(dev, data, total);
      var sent := Concat(r.chunks);
      |sent| <= |data| - total && sent == data[total..total + |sent|] &&
      (r.ok ==> sent == data[total..])
    decreases |data| - total
  {
    hide FlushFrom, Concat, NextChunk;
    FlushFromUnfold(dev, data, total);
    ConcatCons([], []);
    if total < |data| {
      var c := NextChunk(data, total);
      var reply := dev(c);
      if !reply.ok || reply.written != |c| {
        ConcatCons(c, []);
        assert [c] + [] == [c];
      } else {
        FlushSendsInOrder(dev, data, total + |c|);
        var rest := Concat(FlushFrom(dev, data, total + |c|).chunks);
        ConcatCons(c, FlushFrom(dev, data, total + |c|).chunks);
        assert data[total..total + |c| + |rest|] == c + data[total + |c|..total + |c| + |rest|];
        assert data[total..] == c + data[total + |c|..];
      }
    }
  }

  /** `FlushFrom` one step unfolded. */
  lemma FlushFromUnfold(dev: Device, data: seq<byte>, total: nat)
    requires total <= |data|
    ensures total == |data| ==> FlushFrom(dev, data, total) == FlushResult(true, [])
    ensures total < |data| ==>
      var c := NextChunk(data, total);
      FlushFrom(dev, data, total) ==
        if !dev(c).ok || dev(c).written != |c| then FlushResult(false, [c])
        else FlushResult(FlushFrom(dev, data, total + |c|).ok, [c] + FlushFrom(dev, data, total + |c|).chunks)
  {
  }

  /** `Concat` of no chunks, and of one chunk in front of others. */
  lemma ConcatCons(c: seq<byte>, cs: seq<seq<byte>>)
    ensures Concat([]) == []
    ensures Concat([c] + cs) == c + Concat(cs)
  {
    assert ([c] + cs)[0] == c;
    assert ([c] + cs)[1..] == cs;
  }

  /** A failed flush ends with the chunk the device refused or wrote short. */
  lemma {:induction false} FlushStopsAtFailure(dev: Device, data: seq<byte>, total: nat)
    requires total <= |data|
    requires !FlushFrom(dev, data, total).ok
    ensures var cs := FlushFrom(dev, data, total).chunks;
      cs != [] && var last := cs[|cs| - 1];
      !(dev(last).ok && dev(last).written == |last|)
    decreases |data| - total
  {
    var c := NextChunk(data, total);
    var reply := dev(c);
    if reply.ok && reply.written == |c| {
      FlushStopsAtFailure(dev, data, total + |c|);
    }
  }

  /** A device that accepts every chunk in full makes every flush succeed. */
  lemma {:induction false} FlushSucceedsOnHealthyDevice(dev: Device, data: seq<byte>, total: nat)
    requires total <= |data|
    requires forall c :: dev(c) == Reply(true, |c|)
    ensures FlushFrom(dev, data, total).ok
    decreases |data| - total
  {
    if total < |data| {
      FlushSucceedsOnHealthyDevice(dev, data, total + |NextChunk(data, total)|);
    }
  }

  function SentEvents(cs: seq<seq<byte>>): (es: seq<Event>)
    ensures |es| == |cs| && forall i :: 0 <= i < |cs| ==> es[i] == Sent(cs[i])
  {
    if cs == [] then [] else [Sent(cs[0])] + SentEvents(cs[1..])
  }

  /**
   * `spfm_flush`: with no handle or nothing buffered it does nothing and
   * succeeds; otherwise the chunks go out and the buffer is emptied, whether
   * the flush succeeded or not.
   */
  function Flush(c: Conn, l: Link): (r: Link)
    ensures c.handle ==> r.pending == [] && |r.events| >= |l.events| && r.events[..|l.events|] == l.events
    ensures !c.handle ==> r == l
  {
    if !c.handle || l.pending == [] then l
    else Link([], l.events + SentEvents(FlushFrom(c.device, l.pending, 0).chunks))
  }

  function FlushOk(c: Conn, l: Link): bool
  {
    !c.handle || l.pending == [] || FlushFrom(c.device, l.pending, 0).ok
  }

  // ------------------------------------------------------------------ writes

  /** Appending bytes to the buffer, flushing first when they would not fit. */
  function Push(c: Conn, l: Link, bytes: seq<byte>): (r: Link)
  {
    var l1 := if |l.pending| + |bytes| > BUF_SIZE then Flush(c, l) else l;
    Link(l1.pending + bytes, l1.events)
  }

  /** `spfm_write_reg`. */
  function WriteReg(c: Conn, l: Link, slot: byte, port: byte, addr: byte, data: byte): (r: Link)
  {
    if !c.handle || c.kind == UnknownKind then l
    else Push(c, l, Frame(c.kind, slot, port, addr, data))
  }

  /** `spfm_write_data`: a data frame on SPFM_Light, a register write to address 0 on SPFM. */
  function WriteData(c: Conn, l: Link, slot: byte, data: byte): (r: Link)
  {
    if !c.handle then l
    else match c.kind
      case Light => Push(c, l, DataFrame(slot, data))
      case Spfm => WriteReg(c, l, slot, 0, 0, data)
      case UnknownKind => l
  }

  /** The software wait in microseconds, `(unsigned int)(samples * 1000000 / 44100)`. */
  function WaitUs(samples: u32): (us: u32)
    ensures samples < 4294 ==> us == samples * 1000000 / 44100
  {
    (samples * 1000000 / 44100) % TWO32
  }

  /** The wait half of `spfm_wait_and_write_reg`. */
  function Wait(c: Conn, l: Link, samples: u32): (r: Link)
  {
    if samples == 0 then l
    else if c.kind == Light && samples < HW_WAIT_THRESHOLD then
      if c.handle then Push(c, l, Waits(samples)) else l
    else if WaitUs(samples) > 0 then
      var f := Flush(c, l);
      Link(f.pending, f.events + [Slept(WaitUs(samples))])
    else l
  }

  /**
   * `spfm_wait_and_write_reg`: the wait, then the register write unless port,
   * address and data are all zero (a wait-only call).
   */
  function WaitAndWriteReg(c: Conn, l: Link, samples: u32, slot: byte, port: byte, addr: byte, data: byte): (r: Link)
  {
    var l1 := Wait(c, l, samples);
    if addr == 0 && data == 0 && port == 0 then l1 else WriteReg(c, l1, slot, port, addr, data)
  }

  /** The hardware-wait path as written: with no handle the bytes are still appended. */
  function WaitAsWritten(c: Conn, l: Link, samples: u32): (r: Link)
  {
    if samples == 0 then l
    else if c.kind == Light && samples < HW_WAIT_THRESHOLD then Push(c, l, Waits(samples))
    else Wait(c, l, samples)
  }

  /** `k` calls of the as-written wait with the handle closed. */
  function ClosedWaitsAsWritten(c: Conn, l: Link, samples: u32, k: nat): (r: Link)
  {
    if k == 0 then l else WaitAsWritten(c, ClosedWaitsAsWritten(c, l, samples, k - 1), samples)
  }

  lemma {:induction false} ClosedWaitsGrow(c: Conn, l: Link, samples: u32, k: nat)
    requires !c.handle && c.kind == Light && 0 < samples < HW_WAIT_THRESHOLD
    ensures ClosedWaitsAsWritten(c, l, samples, k).pending == l.pending + Waits(samples * k)
  {
    if k > 0 {
      ClosedWaitsGrow(c, l, samples, k - 1);
      WaitsAppend(samples * (k - 1), samples);
    }
  }

  lemma {:induction false} WaitsAppend(a: nat, b: nat)
    ensures Waits(a) + Waits(b) == Waits(a + b)
  {
    if b > 0 {
      WaitsAppend(a, b - 1);
    }
  }

  /**
   * After `spfm_cleanup` the handle is closed but the type stays SPFM_Light;
   * as written, 7282 one-call waits of 9 samples then fill more than the
   * 65536-byte buffer, since the flush that should make room does nothing
   * without a handle.
   */
  lemma ClosedWaitsOverrun(dev: Device)
    ensures |ClosedWaitsAsWritten(Conn(dev, false, Light), Link([], []), 9, 7282).pending| > BUF_SIZE
  {
    ClosedWaitsGrow(Conn(dev, false, Light), Link([], []), 9, 7282);
  }

  /** One step of `spfm_write_regs` or of the RAM upload. */
  datatype Op = RegOp(reg: Reg) | WaitOp(n: nat) | FlushOp

  function Apply(c: Conn, slot: byte, l: Link, op: Op): (r: Link)
  {
    match op
    case RegOp(reg) => WriteReg(c, l, slot, reg.port, reg.addr, reg.data)
    case WaitOp(n) => if c.handle then Push(c, l, Waits(n)) else l
    case FlushOp => Flush(c, l)
  }

  function Run(c: Conn, slot: byte, l: Link, ops: seq<Op>): (r: Link)
    decreases ops
  {
    if ops == [] then l else Run(c, slot, Apply(c, slot, l, ops[0]), ops[1..])
  }

  lemma {:induction false} RunAppend(c: Conn, slot: byte, l: Link, a: seq<Op>, b: seq<Op>)
    ensures Run(c, slot, l, a + b) == Run(c, slot, Run(c, slot, l, a), b)
    decreases a
  {
    if a != [] {
      assert (a + b)[0] == a[0];
      assert (a + b)[1..] == a[1..] + b;
      RunAppend(c, slot, Apply(c, slot, l, a[0]), a[1..], b);
    } else {
      assert a + b == b;
    }
  }

  /** `spfm_write_regs`: each register, then `write_wait` hardware waits when nonzero. */
  function RegsOps(regs: seq<Reg>, writeWait: nat): (ops: seq<Op>)
  {
    if regs == [] then []
    else [RegOp(regs[0])] + (if writeWait > 0 then [WaitOp(writeWait)] else []) + RegsOps(regs[1..], writeWait)
  }

  // ------------------------------------------------------- the bound on the buffer

  predicate Fits(l: Link) { |l.pending| <= BUF_SIZE }

  lemma PushFits(c: Conn, l: Link, bytes: seq<byte>)
    requires Fits(l) && c.handle && |bytes| <= BUF_SIZE
    ensures Fits(Push(c, l, bytes))
  {
  }

  /**
   * With the handle open, every operation keeps the buffer within its 64 KiB:
   * a frame or a run of waits that would not fit is preceded by a flush,
   * which empties it.
   */
  lemma ApplyFits(c: Conn, slot: byte, l: Link, op: Op)
    requires Fits(l)
    requires op.WaitOp? ==> op.n <= BUF_SIZE
    ensures Fits(Apply(c, slot, l, op))
  {
  }

  lemma WaitAndWriteFits(c: Conn, l: Link, samples: u32, slot: byte, port: byte, addr: byte, data: byte)
    requires Fits(l)
    ensures Fits(WaitAndWriteReg(c, l, samples, slot, port, addr, data))
  {
    var l1 := Wait(c, l, samples);
    assert Fits(l1);
  }

  lemma WriteDataFits(c: Conn, l: Link, slot: byte, data: byte)
    requires Fits(l)
    ensures Fits(WriteData(c, l, slot, data))
  {
  }

  /** A wait-only call (port, address and data zero) never appends a register frame. */
  lemma WaitOnlyAppendsNoFrame(c: Conn, l: Link, samples: u32, slot: byte)
    ensures WaitAndWriteReg(c, l, samples, slot, 0, 0, 0) == Wait(c, l, samples)
    ensures samples == 0 ==> WaitAndWriteReg(c, l, samples, slot, 0, 0, 0) == l
    ensures (c.kind == Light && 0 < samples < HW_WAIT_THRESHOLD && c.handle &&
             |l.pending| + samples <= BUF_SIZE) ==>
      WaitAndWriteReg(c, l, samples, slot, 0, 0, 0) == Link(l.pending + Waits(samples), l.events)
  {
  }

  // ------------------------------------------------------------ RAM upload

  /**
   * The nine setup writes of `spfm_write_ym2608_ram`: start, stop and limit
   * are byte addresses divided by 4, stop is `address + size - 1` in 32 bits
   * and the limit is stop capped at 0x3FFFF; each is sent as two bytes.
   */
  function RamSetup(address: u32, size: u32): (ops: seq<Op>)
    ensures |ops| == 9
  {
    var start := address / 4;
    var stopRaw := (address + size - 1) % TWO32;
    var stop := stopRaw / 4;
    var limit := Min(stopRaw, 0x3FFFF) / 4;
    [RegOp(Reg(1, 0x10, 0x80)), RegOp(Reg(1, 0x00, 0x60)), RegOp(Reg(1, 0x01, 0x00)),
     RegOp(Reg(1, 0x02, start % 0x100)), RegOp(Reg(1, 0x03, start / 0x100 % 0x100)),
     RegOp(Reg(1, 0x04, stop % 0x100)), RegOp(Reg(1, 0x05, stop / 0x100 % 0x100)),
     RegOp(Reg(1, 0x0c, limit % 0x100)), RegOp(Reg(1, 0x0d, limit / 0x100 % 0x100))]
  }

  /** The limit registers always carry the whole capped limit: it is below 0x10000. */
  lemma RamLimitExact(address: u32, size: u32)
    ensures var ops := RamSetup(address, size);
      var stopRaw := (address + size - 1) % TWO32;
      ops[8].reg.data * 0x100 + ops[7].reg.data == Min(stopRaw, 0x3FFFF) / 4 &&
      ops[7].reg.addr == 0x0c && ops[8].reg.addr == 0x0d
  {
  }

  /** Data writes to register 8 from byte `i` on, with a flush after every 256th byte. */
  function RamData(data: seq<byte>, i: nat): (ops: seq<Op>)
    requires i <= |data|
    decreases |data| - i
  {
    if i == |data| then []
    else [RegOp(Reg(1, 0x08, data[i]))] + (if (i + 1) % 256 == 0 then [FlushOp] else []) + RamData(data, i + 1)
  }

  const RAM_END: seq<Op> := [RegOp(Reg(1, 0x00, 0x00)), RegOp(Reg(1, 0x10, 0x80)), FlushOp]

  function RamOps(address: u32, data: seq<byte>): (ops: seq<Op>)
    requires |data| < TWO32
  {
    RamSetup(address, |data|) + RamData(data, 0) + RAM_END
  }

  /** The data bytes the register-8 writes of a list of steps carry. */
  function DataBytes(ops: seq<Op>): seq<byte>
  {
    if ops == [] then []
    else (if ops[0].RegOp? && ops[0].reg.addr == 0x08 then [ops[0].reg.data] else []) + DataBytes(ops[1..])
  }

  function FlushCount(ops: seq<Op>): nat
  {
    if ops == [] then 0 else (if ops[0] == FlushOp then 1 else 0) + FlushCount(ops[1..])
  }

  /**
   * The upload writes every data byte, in order, to register 8, and flushes
   * once per 256 bytes written.
   */
  lemma {:induction false} RamDataInOrder(data: seq<byte>, i: nat)
    requires i <= |data|
    ensures DataBytes(RamData(data, i)) == data[i..]
    ensures FlushCount(RamData(data, i)) == |data| / 256 - i / 256
    decreases |data| - i
  {
    if i < |data| {
      RamDataInOrder(data, i + 1);
      var head := [RegOp(Reg(1, 0x08, data[i]))] + (if (i + 1) % 256 == 0 then [FlushOp] else []);
      DataBytesAppend(head, RamData(data, i + 1));
      FlushCountAppend(head, RamData(data, i + 1));
      assert data[i..] == [data[i]] + data[i + 1..];
      if (i + 1) % 256 == 0 {
        assert head == [RegOp(Reg(1, 0x08, data[i]))] + [FlushOp];
        assert DataBytes(head) == [data[i]] by {
          assert head[1..] == [FlushOp];
        }
        assert FlushCount(head) == 1 by {
          assert head[1..] == [FlushOp];
        }
        assert (i + 1) / 256 == i / 256 + 1;
      } else {
        assert head == [RegOp(Reg(1, 0x08, data[i]))];
        assert (i + 1) / 256 == i / 256;
      }
    }
  }

  lemma {:induction false} DataBytesAppend(a: seq<Op>, b: seq<Op>)
    ensures DataBytes(a + b) == DataBytes(a) + DataBytes(b)
  {
    if a != [] {
      assert (a + b)[0] == a[0];
      assert (a + b)[1..] == a[1..] + b;
      DataBytesAppend(a[1..], b);
    } else {
      assert a + b == b;
    }
  }

  lemma {:induction false} FlushCountAppend(a: seq<Op>, b: seq<Op>)
    ensures FlushCount(a + b) == FlushCount(a) + FlushCount(b)
  {
    if a != [] {
      assert (a + b)[0] == a[0];
      assert (a + b)[1..] == a[1..] + b;
      FlushCountAppend(a[1..], b);
    } else {
      assert a + b == b;
    }
  }

  // --------------------------------------------------------- the interface

  /**
   * The module's static state: `ftHandle` and `spfm_type` (as `conn`), the
   * `spfm_write_buf` array and its `spfm_write_buf_ptr`, and the log of what
   * reached the device.
   */
  class Interface {
    var conn: Conn
    const buf: array<byte>
    var ptr: nat
    var events: seq<Event>

    predicate Valid()
      reads this
    {
      buf.Length == BUF_SIZE && ptr <= BUF_SIZE
    }

    function State(): (l: Link)
      reads this, buf
      requires Valid()
      ensures Fits(l)
    {
      Link(buf[..ptr], events)
    }

    constructor (conn: Conn)
      ensures Valid() && fresh(buf) && this.conn == conn && State() == Link([], [])
    {
      this.conn := conn;
      buf := new byte[BUF_SIZE];
      ptr := 0;
      events := [];
    }

    /** `spfm_flush`. */
    method FlushBuffer() returns (ok: bool)
      requires Valid()
      modifies this
      ensures Valid() && conn == old(conn)
      ensures State() == Flush(conn, old(State())) && ok == FlushOk(conn, old(State()))
    {
      if !conn.handle || ptr == 0 {
        assert ptr == 0 ==> State().pending == [];
        return true;
      }
      // chunks go out in order; any error or short write ends the flush, and
      // the buffer is emptied either way
      ghost var l0 := State();
      var sent;
      ok, sent := SendBuffer();
      events := events + SentEvents(sent);
      ptr := 0;
      assert State() == Link([], l0.events + SentEvents(sent));
    }

    /** The write loop of `spfm_flush`: the buffer's chunks, in order, until one fails or is written short. */
    method SendBuffer() returns (ok: bool, sent: seq<seq<byte>>)
      requires Valid()
      ensures FlushFrom(conn.device, buf[..ptr], 0) == FlushResult(ok, sent)
    {
      hide FlushFrom, NextChunk, Flush, FlushOk, Concat, SentEvents;
      ghost var data := buf[..ptr];
      var total := 0;
      sent := [];
      ok := true;
      while ok && total < ptr
        invariant total <= ptr == |data| && data == buf[..ptr]
        invariant ok ==> FlushFrom(conn.device, data, 0) == Preceded(sent, FlushFrom(conn.device, data, total))
        invariant !ok ==> FlushFrom(conn.device, data, 0) == FlushResult(false, sent)
        decreases ptr - total, ok
      {
        var n := if ptr - total > CHUNK then CHUNK else ptr - total;
        var chunk := buf[total..total + n];
        SliceOfPrefix(buf[..], ptr, total, total + n);
        assert chunk == NextChunk(data, total);
        var reply := conn.device(chunk);
        FlushStep(conn.device, data, total, chunk, sent);
        sent := sent + [chunk];
        if !reply.ok || reply.written != n {
          ok := false;
        } else {
          total := total + n;
        }
      }
      if ok {
        FlushFromUnfold(conn.device, data, total);
        assert sent + [] == sent;
      }
    }

    /** Copying bytes into the buffer after the room check (`memcpy`, or the 0x80 loop). */
    method Append(bytes: seq<byte>)
      requires Valid() && conn.handle && |bytes| <= BUF_SIZE
      modifies this, buf
      ensures Valid() && conn == old(conn)
      ensures State() == Push(conn, old(State()), bytes)
    {
      hide Flush, FlushFrom, FlushOk, Concat, SentEvents, Preceded, NextChunk;
      ghost var l1 := if ptr + |bytes| > BUF_SIZE then Flush(conn, State()) else State();
      if ptr + |bytes| > BUF_SIZE {
        var _ := FlushBuffer();
      }
      assert buf[..ptr] == l1.pending && events == l1.events;
      var i := 0;
      while i < |bytes|
        invariant 0 <= i <= |bytes|
        invariant buf[..ptr + i] == l1.pending + bytes[..i]
        modifies buf
      {
        buf[ptr + i] := bytes[i];
        assert bytes[..i + 1] == bytes[..i] + [bytes[i]];
        i := i + 1;
      }
      assert bytes[..i] == bytes;
      ptr := ptr + |bytes|;
    }

    /** `spfm_write_reg`. */
    method WriteRegister(slot: byte, port: byte, addr: byte, data: byte)
      requires Valid()
      modifies this, buf
      ensures Valid() && conn == old(conn)
      ensures State() == WriteReg(conn, old(State()), slot, port, addr, data)
    {
      if !conn.handle || conn.kind == UnknownKind {
        return;
      }
      Append(Frame(conn.kind, slot, port, addr, data));
    }

    /** `spfm_write_data`. */
    method WriteDataByte(slot: byte, data: byte)
      requires Valid()
      modifies this, buf
      ensures Valid() && conn == old(conn)
      ensures State() == WriteData(conn, old(State()), slot, data)
    {
      if !conn.handle {
        return;
      }
      if conn.kind == Light {
        Append(DataFrame(slot, data));
      } else if conn.kind == Spfm {
        WriteRegister(slot, 0, 0, data);
      }
    }

    /** `spfm_wait_and_write_reg`, with the hardware wait taken only while the handle is open. */
    method WaitAndWriteRegister(samples: u32, slot: byte, port: byte, addr: byte, data: byte)
      requires Valid()
      modifies this, buf
      ensures Valid() && conn == old(conn)
      ensures State() == WaitAndWriteReg(conn, old(State()), samples, slot, port, addr, data)
    {
      if samples > 0 {
        if conn.kind == Light && samples < HW_WAIT_THRESHOLD {
          if conn.handle {
            Append(Waits(samples));
          }
        } else {
          var us := WaitUs(samples);
          if us > 0 {
            var _ := FlushBuffer();
            events := events + [Slept(us)];
          }
        }
      }
      if addr == 0 && data == 0 && port == 0 {
        return;
      }
      WriteRegister(slot, port, addr, data);
    }

    /** One step of `Run`. */
    method ApplyOp(slot: byte, op: Op)
      requires Valid() && (op.WaitOp? ==> op.n <= BUF_SIZE)
      modifies this, buf
      ensures Valid() && conn == old(conn)
      ensures State() == Apply(conn, slot, old(State()), op)
    {
      match op
      case RegOp(reg) => WriteRegister(slot, reg.port, reg.addr, reg.data);
      case WaitOp(n) =>
        if conn.handle {
          Append(Waits(n));
        }
      case FlushOp => var _ := FlushBuffer();
    }

    /**
     * `spfm_write_regs`. A `write_wait` larger than the buffer would overrun
     * it in the source, so callers must keep it within `BUF_SIZE`.
     */
    method WriteRegisters(slot: byte, regs: seq<Reg>, writeWait: u32)
      requires Valid() && writeWait <= BUF_SIZE
      modifies this, buf
      ensures Valid() && conn == old(conn)
      ensures State() == (if conn.handle then Run(conn, slot, old(State()), RegsOps(regs, writeWait))
                          else old(State()))
    {
      if !conn.handle {
        return;
      }
      ghost var start := State();
      var i := 0;
      while i < |regs|
        invariant 0 <= i <= |regs| && Valid() && conn == old(conn)
        invariant Run(conn, slot, start, RegsOps(regs, writeWait)) ==
                  Run(conn, slot, State(), RegsOps(regs[i..], writeWait))
      {
        assert regs[i..][1..] == regs[i + 1..];
        var ops := [RegOp(regs[i])] + (if writeWait > 0 then [WaitOp(writeWait)] else []);
        assert RegsOps(regs[i..], writeWait) == ops + RegsOps(regs[i + 1..], writeWait);
        RunAppend(conn, slot, State(), ops, RegsOps(regs[i + 1..], writeWait));
        ghost var mid := State();
        WriteRegister(slot, regs[i].port, regs[i].addr, regs[i].data);
        assert State() == Run(conn, slot, mid, [RegOp(regs[i])]);
        if writeWait > 0 {
          ghost var mid2 := State();
          Append(Waits(writeWait));
          RunAppend(conn, slot, mid, [RegOp(regs[i])], [WaitOp(writeWait)]);
          assert ops == [RegOp(regs[i])] + [WaitOp(writeWait)];
          assert State() == Run(conn, slot, mid2, [WaitOp(writeWait)]);
        }
        assert State() == Run(conn, slot, mid, ops);
        i := i + 1;
      }
      assert regs[i..] == [];
    }

    /** `spfm_write_ym2608_ram`: nothing without a handle, else the steps of `RamOps`. */
    method WriteYm2608Ram(slot: byte, address: u32, data: seq<byte>)
      requires Valid() && |data| < TWO32
      modifies this, buf
      ensures Valid() && conn == old(conn)
      ensures State() == (if conn.handle then Run(conn, slot, old(State()), RamOps(address, data))
                          else old(State()))
    {
      if !conn.handle {
        return;
      }
      ghost var start := State();
      var setup := RamSetup(address, |data|);
      RunOps(slot, setup);
      ghost var afterSetup := State();
      WriteRamData(slot, data);
      ghost var afterData := State();
      RunOps(slot, RAM_END);
      RunAppend(conn, slot, start, setup, RamData(data, 0));
      RunAppend(conn, slot, start, setup + RamData(data, 0), RAM_END);
    }

    /** A fixed run of register writes and flushes, one after another. */
    method RunOps(slot: byte, ops: seq<Op>)
      requires Valid() && forall i :: 0 <= i < |ops| ==> !ops[i].WaitOp?
      modifies this, buf
      ensures Valid() && conn == old(conn)
      ensures State() == Run(conn, slot, old(State()), ops)
    {
      ghost var start := State();
      assert ops[0..] == ops;
      var k := 0;
      while k < |ops|
        invariant 0 <= k <= |ops| && Valid() && conn == old(conn)
        invariant Run(conn, slot, start, ops) == Run(conn, slot, State(), ops[k..])
      {
        assert ops[k..][1..] == ops[k + 1..];
        ApplyOp(slot, ops[k]);
        k := k + 1;
      }
    }

    /** The data loop of `spfm_write_ym2608_ram`: register 8 per byte, a flush after every 256th. */
    method WriteRamData(slot: byte, data: seq<byte>)
      requires Valid()
      modifies this, buf
      ensures Valid() && conn == old(conn)
      ensures State() == Run(conn, slot, old(State()), RamData(data, 0))
    {
      ghost var start := State();
      var i := 0;
      while i < |data|
        invariant 0 <= i <= |data| && Valid() && conn == old(conn)
        invariant Run(conn, slot, start, RamData(data, 0)) == Run(conn, slot, State(), RamData(data, i))
      {
        var head := [RegOp(Reg(1, 0x08, data[i]))] + (if (i + 1) % 256 == 0 then [FlushOp] else []);
        assert RamData(data, i) == head + RamData(data, i + 1);
        RunAppend(conn, slot, State(), head, RamData(data, i + 1));
        ghost var mid := State();
        WriteRegister(slot, 1, 0x08, data[i]);
        assert State() == Run(conn, slot, mid, [RegOp(Reg(1, 0x08, data[i]))]);
        if (i + 1) % 256 == 0 {
          ghost var mid2 := State();
          var _ := FlushBuffer();
          RunAppend(conn, slot, mid, [RegOp(Reg(1, 0x08, data[i]))], [FlushOp]);
          assert State() == Run(conn, slot, mid2, [FlushOp]);
        }
        assert State() == Run(conn, slot, mid, head);
        i := i + 1;
      }
    }
  }
}
