// The timer-driven playback loops of v0.86/console_player/vgm.c. The header
// reader and `vgm_process_command` of v0.86 are those of v0.84 word for word,
// so the loops here run the command model of `V0084Vgm`. Each pass of a loop
// adds the samples that real time says are due to a backlog (a `double`,
// modelled as a real), then processes commands until their waits reach the
// backlog's integer part or playback stops, and carries the remainder over.

module V0086Vgm {
  import opened Bytes
  import V0084Vgm

  type Header = V0084Vgm.Header
  type Waits = V0084Vgm.Waits
  type Call = V0084Vgm.Call

  /**
   * The three ways `vgm_play` keeps time: the compensated sleep of timer
   * modes 0 to 2, the VGMPlay mode 3 and the optimised VGMPlay mode 7.
   */
  datatype Mode = Compensated | VgmPlayMode | Optimized

  /** The loop `g_timer_mode` selects: 3 and 7 have their own, every other mode the compensated one. */
  function ModeOf(timerMode: int): (m: Mode)
    ensures m == VgmPlayMode <==> timerMode == 3
    ensures m == Optimized <==> timerMode == 7
  {
    if timerMode == 3 then VgmPlayMode else if timerMode == 7 then Optimized else Compensated
  }

  /** `max_samples_per_frame`: the samples of one 60 Hz frame, 44100 / 60. */
  const FRAME_CAP: real := 735.0
  /** The sleep with which the compensated loop yields the processor, in microseconds. */
  const YIELD_US: nat := 1000

  /** C's conversion of a `double` to `int`, which drops the fraction towards zero. */
  function Trunc(x: real): (n: int)
    ensures x >= 0.0 ==> 0 <= n && n as real <= x < n as real + 1.0
    ensures x < 0.0 ==> n <= 0 && x <= n as real < x + 1.0
  {
    if x >= 0.0 then x.Floor else -((-x).Floor)
  }

  /** The backlog after adding the samples due, capped at one frame in the optimised mode only. */
  function Backlog(mode: Mode, backlog: real, due: real): (b: real)
    ensures mode == Optimized ==> b <= FRAME_CAP
    ensures mode == Optimized && backlog + due <= FRAME_CAP ==> b == backlog + due
    ensures mode != Optimized ==> b == backlog + due
  {
    if mode == Optimized && backlog + due > FRAME_CAP then FRAME_CAP else backlog + due
  }

  /** The yield after each pass: 1 ms of sleep in the compensated mode, nothing in the others. */
  function Yield(mode: Mode): (t: seq<Call>)
    ensures mode == Compensated <==> t != []
  {
    if mode == Compensated then [V0084Vgm.Sleep(YIELD_US)] else []
  }

  /**
   * The state of a drain: the stream position, `g_is_playing`, the wait
   * lengths, the samples processed, the commands processed and the calls made.
   */
  datatype DrainState = DrainState(pos: nat, playing: bool, waits: Waits, processed: nat, commands: nat, calls: seq<Call>)

  /**
   * The inner loop: commands processed while their waits fall short of
   * `target`, ending after a command that stops playback. At most `budget`
   * commands are processed.
   */
  function Drain(h: Header, flushMode: int, data: seq<byte>, s: DrainState, target: int, budget: nat): (r: DrainState)
    ensures s.processed <= r.processed && s.commands <= r.commands <= s.commands + budget
    ensures |s.calls| <= |r.calls| && r.calls[..|s.calls|] == s.calls
    ensures r.processed >= target || !r.playing || r.commands == s.commands + budget
    ensures s.processed >= target ==> r == s
    decreases budget
  {
    if s.processed >= target || budget == 0 then s
    else
      var o := V0084Vgm.Command(h, flushMode, data, s.pos, s.waits);
      var t := DrainState(o.next, s.playing && !o.stop, o.waits, s.processed + o.wait, s.commands + 1, s.calls + o.calls);
      assert t.calls[..|s.calls|] == s.calls;
      if !t.playing then t else Drain(h, flushMode, data, t, target, budget - 1)
  }

  /**
   * A drain never overshoots its target by a whole 16-bit wait: the last
   * command starts below the target and waits at most 0xFFFF samples.
   */
  lemma {:induction false} DrainOvershoot(h: Header, flushMode: int, data: seq<byte>, s: DrainState, target: int, budget: nat)
    requires s.processed < target + 0x10000
    ensures Drain(h, flushMode, data, s, target, budget).processed < target + 0x10000
    decreases budget
  {
    hide *;
    if s.processed >= target || budget == 0 {
      DrainDone(h, flushMode, data, s, target, budget);
    } else {
      var o := V0084Vgm.Command(h, flushMode, data, s.pos, s.waits);
      V0084Vgm.CommandWaitBound(h, flushMode, data, s.pos, s.waits);
      DrainUnfold(h, flushMode, data, s, target, budget);
      var t := DrainState(o.next, s.playing && !o.stop, o.waits, s.processed + o.wait, s.commands + 1, s.calls + o.calls);
      if t.playing {
        DrainOvershoot(h, flushMode, data, t, target, budget - 1);
      }
    }
  }

  /** The state the outer loop carries: position, `g_is_playing`, wait lengths, backlog and calls. */
  datatype TickState = TickState(pos: nat, playing: bool, waits: Waits, backlog: real, calls: seq<Call>)

  /**
   * One pass of the outer loop after any pause: `due` samples added to the
   * backlog, the drain to its integer part, the samples processed taken off
   * the backlog, then the yield.
   */
  function Tick(h: Header, flushMode: int, mode: Mode, data: seq<byte>, s: TickState, due: real, budget: nat): (r: TickState)
  {
    var b := Backlog(mode, s.backlog, due);
    var d := Drain(h, flushMode, data, DrainState(s.pos, s.playing, s.waits, 0, 0, s.calls), Trunc(b), budget);
    TickState(d.pos, d.playing, d.waits, b - d.processed as real, d.calls + Yield(mode))
  }

  /**
   * What a pass leaves in the backlog. It never grows by more than the
   * samples due, and by less when commands ran. When the drain ran to its
   * target from a backlog that was not negative, less than one sample is left
   * and the backlog is at most one 16-bit wait below zero. In the optimised
   * mode the drain's target never exceeds one frame.
   */
  lemma {:induction false} RemainderCarried(h: Header, flushMode: int, mode: Mode, data: seq<byte>, s: TickState, due: real, budget: nat)
    ensures var b := Backlog(mode, s.backlog, due);
      var d := Drain(h, flushMode, data, DrainState(s.pos, s.playing, s.waits, 0, 0, s.calls), Trunc(b), budget);
      var r := Tick(h, flushMode, mode, data, s, due, budget);
      r.backlog <= s.backlog + due &&
      (mode == Optimized ==> Trunc(b) <= 735) &&
      (b >= 0.0 && d.processed >= Trunc(b) ==> -65536.0 < r.backlog < 1.0)
  {
    var b := Backlog(mode, s.backlog, due);
    var s0 := DrainState(s.pos, s.playing, s.waits, 0, 0, s.calls);
    if b >= 0.0 {
      DrainOvershoot(h, flushMode, data, s0, Trunc(b), budget);
    }
  }

  /** The outer loop over the samples due at each pass; it ends when playback stops or the passes run out. */
  function Ticks(h: Header, flushMode: int, mode: Mode, data: seq<byte>, s: TickState, dues: seq<real>, budget: nat): (r: TickState)
    ensures |s.calls| <= |r.calls| && r.calls[..|s.calls|] == s.calls
    decreases |dues|
  {
    if !s.playing || dues == [] then s
    else
      var t := Tick(h, flushMode, mode, data, s, dues[0], budget);
      assert t.calls[..|s.calls|] == s.calls by {
        assert Drain(h, flushMode, data, DrainState(s.pos, s.playing, s.waits, 0, 0, s.calls), Trunc(Backlog(mode, s.backlog, dues[0])), budget).calls[..|s.calls|] == s.calls;
      }
      Ticks(h, flushMode, mode, data, t, dues[1..], budget)
  }

  /** `Ticks` one pass down. */
  lemma TicksUnfold(h: Header, flushMode: int, mode: Mode, data: seq<byte>, s: TickState, dues: seq<real>, budget: nat)
    requires s.playing && dues != []
    ensures Ticks(h, flushMode, mode, data, s, dues, budget) ==
      Ticks(h, flushMode, mode, data, Tick(h, flushMode, mode, data, s, dues[0], budget), dues[1..], budget)
  {
  }

  /**
   * The inner loop on a player: commands processed until their waits reach
   * `target`, playback stops or `budget` commands were processed. It returns
   * the samples processed and the wait lengths after them.
   */
  method DrainLoop(p: V0084Vgm.Playback, h: Header, flushMode: int, waits: Waits, target: int, budget: nat)
    returns (processed: nat, waits': Waits)
    modifies p, p.fp
    ensures var r := Drain(h, flushMode, p.fp.data, DrainState(old(p.fp.pos), old(p.playing), waits, 0, 0, old(p.calls)), target, budget);
      processed == r.processed && waits' == r.waits && p.fp.pos == r.pos && p.playing == r.playing && p.calls == r.calls
  {
    hide Drain, V0084Vgm.Command;
    ghost var goal := Drain(h, flushMode, p.fp.data, DrainState(p.fp.pos, p.playing, waits, 0, 0, p.calls), target, budget);
    processed, waits' := 0, waits;
    ghost var commands := 0;
    var left := budget;
    while processed < target && left > 0
      invariant goal == Drain(h, flushMode, p.fp.data, DrainState(p.fp.pos, p.playing, waits', processed, commands, p.calls), target, left)
      decreases left
    {
      ghost var before := DrainState(p.fp.pos, p.playing, waits', processed, commands, p.calls);
      DrainUnfold(h, flushMode, p.fp.data, before, target, left);
      ghost var o := V0084Vgm.Command(h, flushMode, p.fp.data, p.fp.pos, waits');
      var samples;
      samples, waits' := p.ProcessCommand(h, flushMode, waits');
      processed := processed + samples;
      commands := commands + 1;
      left := left - 1;
      ghost var after := DrainState(p.fp.pos, p.playing, waits', processed, commands, p.calls);
      assert after == DrainState(o.next, before.playing && !o.stop, o.waits, before.processed + o.wait, before.commands + 1, before.calls + o.calls);
      if !p.playing {
        return;
      }
    }
    DrainDone(h, flushMode, p.fp.data, DrainState(p.fp.pos, p.playing, waits', processed, commands, p.calls), target, left);
  }

  /** A drain that has reached its target or used up its budget processes nothing. */
  lemma DrainDone(h: Header, flushMode: int, data: seq<byte>, s: DrainState, target: int, budget: nat)
    requires s.processed >= target || budget == 0
    ensures Drain(h, flushMode, data, s, target, budget) == s
  {
  }

  /** `Drain` one command down. */
  lemma DrainUnfold(h: Header, flushMode: int, data: seq<byte>, s: DrainState, target: int, budget: nat)
    requires s.processed < target && budget > 0
    ensures var o := V0084Vgm.Command(h, flushMode, data, s.pos, s.waits);
      var t := DrainState(o.next, s.playing && !o.stop, o.waits, s.processed + o.wait, s.commands + 1, s.calls + o.calls);
      Drain(h, flushMode, data, s, target, budget) == if !t.playing then t else Drain(h, flushMode, data, t, target, budget - 1)
  {
  }

  /** One pass of the outer loop on a player, after any pause. */
  method TickOn(p: V0084Vgm.Playback, h: Header, flushMode: int, mode: Mode, waits: Waits, backlog: real, due: real, budget: nat)
    returns (waits': Waits, backlog': real)
    modifies p, p.fp
    ensures var r := Tick(h, flushMode, mode, p.fp.data, TickState(old(p.fp.pos), old(p.playing), waits, backlog, old(p.calls)), due, budget);
      p.fp.pos == r.pos && p.playing == r.playing && waits' == r.waits && backlog' == r.backlog && p.calls == r.calls
  {
    hide Drain;
    backlog' := backlog + due;
    if mode == Optimized && backlog' > FRAME_CAP {
      backlog' := FRAME_CAP;
    }
    var processed;
    processed, waits' := DrainLoop(p, h, flushMode, waits, Trunc(backlog'), budget);
    backlog' := backlog' - processed as real;
    if mode == Compensated {
      p.calls := p.calls + [V0084Vgm.Sleep(YIELD_US)];
    }
  }

  /**
   * `vgm_play` of v0.86 in the mode `g_timer_mode` selects. It fails when the
   * header cannot be read or, in modes 3 and 7, when the multimedia timer
   * cannot be created; otherwise the wait lengths start at 735 and 882 and
   * the backlog at 0, a pass runs for each entry of `dues` while playback
   * goes on, and the buffer is flushed and `g_is_playing` cleared.
   */
  method VgmPlay(p: V0084Vgm.Playback, flushMode: int, timerMode: int, timerOk: bool, dues: seq<real>, budget: nat)
    returns (ok: bool)
    modifies p, p.fp
    ensures var mode := ModeOf(timerMode);
      ok == (|old(p.fp.Peek(V0084Vgm.HEADER_SIZE))| == V0084Vgm.HEADER_SIZE && (timerOk || mode == Compensated))
    ensures !ok ==> p.calls == old(p.calls) && p.playing == old(p.playing)
    ensures ok ==> var h := V0084Vgm.HeaderOf(old(p.fp.Peek(V0084Vgm.HEADER_SIZE)));
      var r := Ticks(h, flushMode, ModeOf(timerMode), p.fp.data,
        TickState(V0084Vgm.DataStart(h), old(p.playing), V0084Vgm.Waits(V0084Vgm.DEFAULT_WAIT1, V0084Vgm.DEFAULT_WAIT2), 0.0, old(p.calls)),
        dues, budget);
      p.fp.pos == r.pos && p.calls == r.calls + [V0084Vgm.Flush] && !p.playing
  {
    var mode := ModeOf(timerMode);
    var h;
    ok, h := p.ParseHeader();
    if !ok {
      return;
    }
    if mode != Compensated && !timerOk {
      return false;
    }
    ghost var goal := Ticks(h, flushMode, mode, p.fp.data,
      TickState(p.fp.pos, p.playing, V0084Vgm.Waits(V0084Vgm.DEFAULT_WAIT1, V0084Vgm.DEFAULT_WAIT2), 0.0, p.calls), dues, budget);
    var waits := V0084Vgm.Waits(V0084Vgm.DEFAULT_WAIT1, V0084Vgm.DEFAULT_WAIT2);
    var backlog := 0.0;
    var i := 0;
    while p.playing && i < |dues|
      invariant i <= |dues|
      invariant goal == Ticks(h, flushMode, mode, p.fp.data, TickState(p.fp.pos, p.playing, waits, backlog, p.calls), dues[i..], budget)
      decreases |dues| - i
    {
      hide Ticks;
      TicksUnfold(h, flushMode, mode, p.fp.data, TickState(p.fp.pos, p.playing, waits, backlog, p.calls), dues[i..], budget);
      assert dues[i..][1..] == dues[i + 1..];
      waits, backlog := TickOn(p, h, flushMode, mode, waits, backlog, dues[i], budget);
      i := i + 1;
    }
    p.calls := p.calls + [V0084Vgm.Flush];
    p.playing := false;
  }
}
