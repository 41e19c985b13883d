/** Why a relay handler ends as it does: over any run, its response is decided by
    the frames it consumed and by whether one of its two waits ended by a timeout (the
    first also by the caller's leaving, which ends the same context). */
module Verdicts {
  import opened Server
  import opened HandlerShape
  import opened ServerSafety

  // The move by which a handler decides on v: a timeout in the stage of v.
  predicate Decides(x: Handler, m: Move, v: Verdict) {
    m.TimeOut? && ((v.GatewayTimeout? && x.pc.AwaitFirst?) || (v.Truncate? && x.pc.Streaming? && m.hijack))
  }

  // v is decided: its cancel frame is under way, or it has been written.
  ghost predicate Decided(x: Handler, v: Verdict) {
    (x.pc.Sending? && x.pc.next == Verdict(v)) || x.tail == Events(v)
  }

  predicate IsTimeout(v: Verdict) {
    v.GatewayTimeout? || v.Truncate?
  }

  // What a handler can have in its tail, by its place in the code.
  lemma TailByPlace(x: Handler)
    requires Shape(x)
    ensures x.tail != [] ==> x.pc.Leaving? || x.pc.Gone?
  {
  }

  lemma RejectedDecides(x: Handler, v: Verdict)
    requires Shape(x) && x.pc.Sending? && IsTimeout(v)
    ensures Decided(Rejected(x), v) <==> Decided(x, v)
  {
    TailByPlace(x);
    if x.pc.next.Verdict? {
      assert x.tail + Events(x.pc.next.v) == Events(x.pc.next.v);
    }
  }

  lemma AcceptedDecides(x: Handler, v: Verdict)
    requires Shape(x) && x.pc.Sending? && IsTimeout(v)
    ensures Decided(Accepted(x), v) <==> Decided(x, v)
  {
    TailByPlace(x);
    if x.pc.next.Verdict? {
      assert x.tail + Events(x.pc.next.v) == Events(x.pc.next.v);
    }
  }

  lemma ConcludeDecides(x: Handler, w: Verdict, v: Verdict)
    requires x.tail == [] && IsTimeout(v) && !IsTimeout(w)
    ensures !Decided(Conclude(x, w), v)
  {
    assert Conclude(x, w).tail == Events(w);
  }

  lemma MoveDecides(x: Handler, m: Move, closed: bool, done: bool, v: Verdict)
    requires Shape(x) && IsTimeout(v)
    ensures Decided(MoveHandler(x, m, closed, done), v) <==> Decided(x, v) || Decides(x, m, v)
  {
    TailByPlace(x);
    match m
    case Gate => if x.pc.Sending? { RejectedDecides(x, v); }
    case SeeSessionDone => if x.pc.Sending? { RejectedDecides(x, v); }
    case GiveUp => if x.pc.Sending? { RejectedDecides(x, v); }
    case SeeMailboxDone =>
      if x.pc.AwaitFirst? { ConcludeDecides(x, BadGateway(OFFLINE), v); }
      if x.pc.Streaming? { ConcludeDecides(x, Silent, v); }
    case _ =>
  }

  // ----------------------------------------------------------------- whole runs

  // Step k of the run is the one by which handler h decides on v.
  ghost predicate StruckAt(steps: seq<Step>, k: nat, h: nat, v: Verdict) {
    && k < |steps| && steps[k].Act? && steps[k].h == h
    && h < |Exec(NEW_SESSION, steps[..k]).handlers|
    && Decides(Exec(NEW_SESSION, steps[..k]).handlers[h], steps[k].m, v)
  }

  ghost predicate Struck(steps: seq<Step>, h: nat, v: Verdict) {
    exists k: nat :: StruckAt(steps, k, h, v)
  }

  lemma StruckSnoc(steps: seq<Step>, h: nat, v: Verdict)
    requires steps != []
    ensures Struck(steps, h, v) <==> Struck(steps[..|steps| - 1], h, v) || StruckAt(steps, |steps| - 1, h, v)
  {
    var n := |steps| - 1;
    forall k: nat | k < n ensures StruckAt(steps, k, h, v) == StruckAt(steps[..n], k, h, v) {
      assert steps[..n][..k] == steps[..k];
    }
    if Struck(steps, h, v) {
      var k: nat :| StruckAt(steps, k, h, v);
      assert k == n || StruckAt(steps[..n], k, h, v);
    }
    if Struck(steps[..n], h, v) {
      var k: nat :| StruckAt(steps[..n], k, h, v);
      assert StruckAt(steps, k, h, v);
    }
  }

  // A step that is no move or send of handler h decides nothing for it.
  ghost predicate Untouched(x: Handler, y: Handler) {
    && y.tail == x.tail
    && (y.pc == x.pc || (!(x.pc.Sending? && x.pc.next.Verdict?) && !(y.pc.Sending? && y.pc.next.Verdict?)))
  }

  lemma BookUntouched(s: Session, st: Step, h: nat)
    requires h < |s.handlers| && (st.AddID? || st.CheckID? || st.Register?)
    ensures h < |Do(s, st).handlers| && Untouched(s.handlers[h], Do(s, st).handlers[h])
  {
  }

  lemma LeaverUntouched(s: Session, leaver: nat, h: nat)
    requires h < |s.handlers|
    ensures var t := Do(s, Unregister(leaver));
            h < |t.handlers| && Untouched(s.handlers[h], t.handlers[h])
  {
  }

  lemma OtherUntouched(s: Session, st: Step, h: nat)
    requires h < |s.handlers| && (st.Act? || st.Enqueue? || st.Deliver? || st.Drain?)
    requires !(st.Act? && st.h == h) && !(st.Enqueue? && st.h == h)
    ensures h < |Do(s, st).handlers| && Untouched(s.handlers[h], Do(s, st).handlers[h])
  {
  }

  lemma QuietUntouched(s: Session, st: Step, h: nat)
    requires h < |s.handlers| && !st.Act? && !st.Enqueue? && !st.Deliver? && !st.Drain?
    requires !st.AddID? && !st.CheckID? && !st.Register? && !st.Unregister?
    ensures h < |Do(s, st).handlers| && Do(s, st).handlers[h] == s.handlers[h]
  {
  }

  lemma OtherStep(s: Session, st: Step, h: nat, v: Verdict)
    requires h < |s.handlers| && !(st.Act? && st.h == h) && !(st.Enqueue? && st.h == h)
    ensures h < |Do(s, st).handlers| && (Decided(Do(s, st).handlers[h], v) <==> Decided(s.handlers[h], v))
  {
    if st.AddID? || st.CheckID? || st.Register? {
      BookUntouched(s, st, h);
    } else if st.Unregister? {
      LeaverUntouched(s, st.h, h);
    } else if st.Act? || st.Enqueue? || st.Deliver? || st.Drain? {
      OtherUntouched(s, st, h);
    } else {
      QuietUntouched(s, st, h);
    }
  }

  lemma StepDecides(s: Session, st: Step, h: nat, v: Verdict)
    requires Shapes(s) && h < |s.handlers| && IsTimeout(v)
    ensures h < |Do(s, st).handlers|
    ensures Decided(Do(s, st).handlers[h], v) <==>
              Decided(s.handlers[h], v) || (st.Act? && st.h == h && Decides(s.handlers[h], st.m, v))
  {
    if st.Act? && st.h == h {
      MoveDecides(s.handlers[h], st.m, s.closed, s.doneCloses > 0, v);
    } else if st.Enqueue? && st.h == h {
      if s.handlers[h].pc.Sending? { AcceptedDecides(s.handlers[h], v); }
    } else {
      OtherStep(s, st, h, v);
    }
  }

  lemma NewcomerUndecided(s: Session, st: Step, h: nat, v: Verdict)
    requires IsTimeout(v) && |s.handlers| <= h < |Do(s, st).handlers|
    ensures !Decided(Do(s, st).handlers[h], v)
  {
  }

  // Nobody has moved handler h before it arrived.
  lemma {:induction false} NotStruckYet(steps: seq<Step>, h: nat, v: Verdict)
    requires |Exec(NEW_SESSION, steps).handlers| <= h
    ensures !Struck(steps, h, v)
  {
    if steps != [] {
      var n := |steps| - 1;
      HandlersGrow(Exec(NEW_SESSION, steps[..n]), steps[n]);
      NotStruckYet(steps[..n], h, v);
      StruckSnoc(steps, h, v);
    }
  }

  lemma HandlersGrow(s: Session, st: Step)
    ensures |s.handlers| <= |Do(s, st).handlers|
  {
  }

  lemma {:induction false} DecidedIffStruck(steps: seq<Step>, h: nat, v: Verdict)
    requires IsTimeout(v) && h < |Exec(NEW_SESSION, steps).handlers|
    ensures Decided(Exec(NEW_SESSION, steps).handlers[h], v) <==> Struck(steps, h, v)
  {
    if steps != [] {
      var n := |steps| - 1;
      var before := Exec(NEW_SESSION, steps[..n]);
      AlwaysReachable(steps[..n]);
      StruckSnoc(steps, h, v);
      if h < |before.handlers| {
        DecidedIffStruck(steps[..n], h, v);
        StepDecides(before, steps[n], h, v);
      } else {
        NotStruckYet(steps[..n], h, v);
        NewcomerUndecided(before, steps[n], h, v);
      }
    }
  }

  // ------------------------------------------------------------------- the response

  lemma TailOnExit(x: Handler)
    requires Shape(x) && (x.pc.Leaving? || x.pc.Gone?)
    ensures x.trace ==
            if Decided(x, GatewayTimeout) then [Refusal(504, TIMED_OUT)]
            else if Decided(x, Truncate) then Render(x.consumed) + [Truncated]
            else if x.consumed == [] then [Refusal(502, LeavingText(x.up))]
            else Render(x.consumed)
  {
    assert Render(x.consumed) + [] == Render(x.consumed);
    if x.tail != [] {
      var v :| Fits(x.up, x.consumed, v) && x.tail == Events(v);
    }
    if x.consumed == [] {
      assert x.trace == x.tail;
    }
  }

  /** The whole response of a handler that has left, whatever the schedule: 504
      exactly when its wait for a first frame ended by its context, because
      relayTimeout passed or the caller left; what the consumed frames account for,
      cut short exactly when streamIdleTimeout struck later and the connection could
      be hijacked; and 502 when it left without a frame for any other reason, with
      the text that goes with how far its upload got. */
  lemma ResponseDecided(steps: seq<Step>, h: nat)
    requires h < |Exec(NEW_SESSION, steps).handlers|
    requires var pc := Exec(NEW_SESSION, steps).handlers[h].pc; pc.Leaving? || pc.Gone?
    ensures var x := Exec(NEW_SESSION, steps).handlers[h];
            x.trace ==
            if Struck(steps, h, GatewayTimeout) then [Refusal(504, TIMED_OUT)]
            else if Struck(steps, h, Truncate) then Render(x.consumed) + [Truncated]
            else if x.consumed == [] then [Refusal(502, LeavingText(x.up))]
            else Render(x.consumed)
  {
    AlwaysReachable(steps);
    DecidedIffStruck(steps, h, GatewayTimeout);
    DecidedIffStruck(steps, h, Truncate);
    assert Shape(Exec(NEW_SESSION, steps).handlers[h]);
    TailOnExit(Exec(NEW_SESSION, steps).handlers[h]);
  }
}
