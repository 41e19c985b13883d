/** The two timeouts of a relay handler in discrete time.  The timer is the harder
    kind: its tick stays in a channel until somebody takes it, which is what the
    Stop, drain, Reset sequence has to get right.  Time may pass, the timer may
    fire and the caller may leave between any two steps of the handler. */
module Timing {

  // relayTimeout and streamIdleTimeout, in any unit.
  datatype Limits = Limits(relay: nat, idle: nat)

  datatype Timer = Unset | Armed(at: nat) | Stopped | Fired

  datatype Exit =
    | TimedOut          // 504 before any frame
    | Cut               // idle timeout
    | CallerLeft
    | Finished          // a frame ended the response

  datatype Pc =
    | First                       // stage one select
    | Opening                     // writing the headers, before NewTimer
    | AtSelect                    // stage two select
    | Stopping(more: bool)        // frame taken, idle.Stop() to come
    | Draining(more: bool)        // Stop returned false
    | Resetting(more: bool)
    | Writing                     // w.Write and Flush, of any duration
    | Done(how: Exit, when: nat, present: bool)

  datatype Clock = Clock(
    now: nat, pc: Pc, timer: Timer, tick: bool,
    present: bool,          // the caller is still connected
    uploaded: nat,          // when the upload finished
    last: nat, frames: nat) // when the last frame was consumed, and how many were

  function StartAt(t: nat): Clock {
    Clock(t, First, Unset, false, true, t, t, 0)
  }

  datatype Step =
    | Advance | Fire | CallerDrops
    | TakeFirst(ok: bool)      // ok: a response_start
    | WaitExpires | NewTimer
    | Take(more: bool)         // more: a response_chunk that decodes
    | Stop | Drain | Reset | WriteDone
    | IdleCut | SeeCallerGone

  function Exits(c: Clock, how: Exit): Clock {
    c.(pc := Done(how, c.now, c.present))
  }

  function Do(c: Clock, l: Limits, st: Step): Clock {
    match st
    case Advance => c.(now := c.now + 1)
    case Fire => if c.timer.Armed? && c.timer.at <= c.now then c.(timer := Fired, tick := true) else c
    case CallerDrops => c.(present := false)
    case TakeFirst(ok) =>
      if c.pc.First? then
        var c' := c.(last := c.now, frames := c.frames + 1);
        if ok then c'.(pc := Opening) else Exits(c', Finished)
      else c
    case WaitExpires =>
      if c.pc.First? && (c.uploaded + l.relay <= c.now || !c.present) then Exits(c, TimedOut) else c
    case NewTimer => if c.pc.Opening? then c.(timer := Armed(c.now + l.idle), pc := AtSelect) else c
    case Take(more) =>
      if c.pc.AtSelect? then c.(last := c.now, frames := c.frames + 1, pc := Stopping(more)) else c
    case Stop =>
      if c.pc.Stopping? then
        if c.timer.Armed? then c.(timer := Stopped, pc := Resetting(c.pc.more)) else c.(pc := Draining(c.pc.more))
      else c
    case Drain => if c.pc.Draining? then c.(tick := false, pc := Resetting(c.pc.more)) else c
    case Reset =>
      if c.pc.Resetting? then
        var c' := c.(timer := Armed(c.now + l.idle));
        if c.pc.more then c'.(pc := Writing) else Exits(c', Finished)
      else c
    case WriteDone => if c.pc.Writing? then c.(pc := AtSelect) else c
    case IdleCut => if c.pc.AtSelect? && c.tick then Exits(c.(tick := false), Cut) else c
    case SeeCallerGone => if c.pc.AtSelect? && !c.present then Exits(c, CallerLeft) else c
  }

  function Exec(c: Clock, l: Limits, steps: seq<Step>): Clock {
    if steps == [] then c else Do(Exec(c, l, steps[..|steps| - 1]), l, steps[|steps| - 1])
  }

  // ------------------------------------------------------------------ invariant

  // No tick is older than the last consumed frame by less than the idle limit.
  ghost predicate Current(c: Clock, l: Limits) {
    && (c.timer.Armed? ==> c.last + l.idle <= c.timer.at)
    && (c.tick ==> c.timer.Fired? && c.last + l.idle <= c.now)
  }

  ghost predicate TimeOK(c: Clock, l: Limits) {
    && c.last <= c.now && c.uploaded <= c.now
    && (c.tick ==> c.timer.Fired?)
    && match c.pc
       case First => c.frames == 0 && c.timer.Unset?
       case Opening => c.timer.Unset?
       case AtSelect => Current(c, l) && !c.timer.Stopped? && !c.timer.Unset?
       case Writing => Current(c, l)  && !c.timer.Stopped? && !c.timer.Unset?
       case Stopping(_) => c.timer.Armed? || c.timer.Fired?
       case Draining(_) => c.timer.Fired?
       case Resetting(_) => !c.timer.Armed? && !c.tick
       case Done(how, when, present) =>
         && (how.TimedOut? && present ==> c.uploaded + l.relay <= when && c.frames == 0)
         && (how.Cut? ==> c.last + l.idle <= when)
  }

  lemma StepTime(c: Clock, l: Limits, st: Step)
    requires TimeOK(c, l)
    ensures TimeOK(Do(c, l, st), l)
  {
  }

  lemma {:induction false} TimeReachable(t: nat, l: Limits, steps: seq<Step>)
    ensures TimeOK(Exec(StartAt(t), l, steps), l)
  {
    if steps != [] {
      TimeReachable(t, l, steps[..|steps| - 1]);
      StepTime(Exec(StartAt(t), l, steps[..|steps| - 1]), l, steps[|steps| - 1]);
    }
  }

  /** Two-stage timing.  While the caller is connected, a 504 is written only when
      relayTimeout has passed since the upload finished and no frame was consumed;
      an idle cut happens only when streamIdleTimeout has passed since the last
      consumed frame, so no stale tick survives Stop, drain and Reset. */
  lemma TimeoutsAreEarned(t: nat, l: Limits, steps: seq<Step>)
    requires Exec(StartAt(t), l, steps).pc.Done?
    ensures var c := Exec(StartAt(t), l, steps);
            && (c.pc.how.TimedOut? && c.pc.present ==> c.uploaded + l.relay <= c.pc.when && c.frames == 0)
            && (c.pc.how.Cut? ==> c.last + l.idle <= c.pc.when)
  {
    TimeReachable(t, l, steps);
  }

  // ---------------------------------------------------------- no total-time cap

  // The last consumed frame is never idle long enough for a cut.
  ghost predicate Lively(c: Clock, l: Limits, steps: seq<Step>) {
    && (Exec(c, l, steps).pc.AtSelect? ==> Exec(c, l, steps).now < Exec(c, l, steps).last + l.idle)
    && (steps != [] ==> Lively(c, l, steps[..|steps| - 1]))
  }

  /** A stream whose gaps stay below the idle limit is never cut, however long it
      has been running and however slowly the caller reads. */
  lemma {:induction false} LivelyNeverCut(t: nat, l: Limits, steps: seq<Step>)
    requires Lively(StartAt(t), l, steps)
    ensures !(Exec(StartAt(t), l, steps).pc.Done? && Exec(StartAt(t), l, steps).pc.how.Cut?)
  {
    if steps != [] {
      LivelyNeverCut(t, l, steps[..|steps| - 1]);
      TimeReachable(t, l, steps[..|steps| - 1]);
    }
  }

  // n frames, each one tick before the idle limit.
  ghost function Waits(n: nat): seq<Step> {
    seq(n, _ => Advance)
  }

  ghost function Stream(l: Limits, n: nat): seq<Step>
    requires l.idle > 0
  {
    if n == 0 then [TakeFirst(true), NewTimer]
    else Stream(l, n - 1) + Waits(l.idle - 1) + [Take(true), Stop, Reset, WriteDone]
  }

  lemma ExecSnoc(c: Clock, l: Limits, steps: seq<Step>, st: Step)
    ensures Exec(c, l, steps + [st]) == Do(Exec(c, l, steps), l, st)
  {
    assert (steps + [st])[..|steps|] == steps;
  }

  lemma {:induction false} ExecWaits(c: Clock, l: Limits, steps: seq<Step>, n: nat)
    ensures var s := Exec(c, l, steps);
            Exec(c, l, steps + Waits(n)) == s.(now := s.now + n)
  {
    if n == 0 {
      assert steps + Waits(0) == steps;
    } else {
      ExecWaits(c, l, steps, n - 1);
      assert steps + Waits(n) == (steps + Waits(n - 1)) + [Advance];
      ExecSnoc(c, l, steps + Waits(n - 1), Advance);
    }
  }

  lemma TakeStopReset(c: Clock, l: Limits)
    requires c.pc.AtSelect? && c.timer.Armed?
    ensures Do(Do(Do(Do(c, l, Take(true)), l, Stop), l, Reset), l, WriteDone)
         == c.(last := c.now, frames := c.frames + 1, timer := Armed(c.now + l.idle))
  {
  }

  // One consumed frame at the select, back to the select.
  lemma FrameCycle(c0: Clock, l: Limits, before: seq<Step>)
    requires Exec(c0, l, before).pc.AtSelect? && Exec(c0, l, before).timer.Armed?
    ensures var c := Exec(c0, l, before);
            Exec(c0, l, before + [Take(true), Stop, Reset, WriteDone]) ==
            c.(last := c.now, frames := c.frames + 1, timer := Armed(c.now + l.idle))
  {
    var s1 := before + [Take(true)];
    var s2 := s1 + [Stop];
    var s3 := s2 + [Reset];
    assert before + [Take(true), Stop, Reset, WriteDone] == s3 + [WriteDone];
    ExecSnoc(c0, l, before, Take(true));
    ExecSnoc(c0, l, s1, Stop);
    ExecSnoc(c0, l, s2, Reset);
    ExecSnoc(c0, l, s3, WriteDone);
    TakeStopReset(Exec(c0, l, before), l);
  }

  lemma StreamOpens(t: nat, l: Limits)
    ensures Exec(StartAt(t), l, [TakeFirst(true), NewTimer])
         == StartAt(t).(pc := AtSelect, frames := 1, timer := Armed(t + l.idle))
  {
    assert [TakeFirst(true), NewTimer] == ([] + [TakeFirst(true)]) + [NewTimer];
    ExecSnoc(StartAt(t), l, [], TakeFirst(true));
    ExecSnoc(StartAt(t), l, [] + [TakeFirst(true)], NewTimer);
  }

  lemma NextFrame(t: nat, l: Limits, n: nat)
    requires l.idle > 0
    requires Exec(StartAt(t), l, Stream(l, n)).pc.AtSelect? && Exec(StartAt(t), l, Stream(l, n)).timer.Armed?
    ensures var c := Exec(StartAt(t), l, Stream(l, n));
            var now := c.now + l.idle - 1;
            Exec(StartAt(t), l, Stream(l, n + 1)) ==
            c.(now := now, last := now, frames := c.frames + 1, timer := Armed(now + l.idle))
  {
    ExecWaits(StartAt(t), l, Stream(l, n), l.idle - 1);
    FrameCycle(StartAt(t), l, Stream(l, n) + Waits(l.idle - 1));
    assert Stream(l, n + 1) == Stream(l, n) + Waits(l.idle - 1) + [Take(true), Stop, Reset, WriteDone];
  }

  // Still at the select with a running timer and no tick.
  ghost predicate StillOpen(c: Clock, l: Limits) {
    c.pc.AtSelect? && c.timer == Armed(c.now + l.idle) && !c.tick
  }

  lemma AddGap(n: nat, gap: nat)
    ensures (n + 1) * gap == n * gap + gap
  {
  }

  lemma OneMore(t: nat, l: Limits, n: nat)
    requires l.idle > 0 && StillOpen(Exec(StartAt(t), l, Stream(l, n)), l)
    ensures var c, d := Exec(StartAt(t), l, Stream(l, n)), Exec(StartAt(t), l, Stream(l, n + 1));
            StillOpen(d, l) && d.frames == c.frames + 1 && d.now == c.now + (l.idle - 1)
  {
    NextFrame(t, l, n);
  }

  /** There is no total-duration cap: for every n there is a run with n further
      frames, each arriving one unit before the idle limit, that is still open. */
  lemma {:induction false} NoTotalCap(t: nat, l: Limits, n: nat)
    requires l.idle > 0
    ensures var c := Exec(StartAt(t), l, Stream(l, n));
            StillOpen(c, l) && c.frames == n + 1 && c.now == t + n * (l.idle - 1)
  {
    if n == 0 {
      StreamOpens(t, l);
    } else {
      NoTotalCap(t, l, n - 1);
      OneMore(t, l, n - 1);
      AddGap(n - 1, l.idle - 1);
    }
  }
}
