/** Mailboxes of a server session: live ids never collide, a registered mailbox is
    in `pending` exactly while its done is open, no frame for it is lost or
    reordered, and nobody is left waiting once close() has emptied `pending`.

    All of this is for paced schedules, in which fewer than 2^32 ids are handed
    out between a handler's choosing an id and its registering it. */
module Mailboxes {
  import opened Proto
  import opened Server
  import opened HandlerShape
  import opened ServerSafety

  ghost predicate Paced(s: Session) {
    forall h :: 0 <= h < |s.handlers| && (s.handlers[h].pc.Checking? || s.handlers[h].pc.Registering?) ==>
      s.adds - s.handlers[h].tick < ID_SPACE
  }

  ghost predicate PacedRun(s: Session, steps: seq<Step>) {
    Paced(Exec(s, steps)) && (steps != [] ==> PacedRun(s, steps[..|steps| - 1]))
  }

  ghost predicate OpenOK(s: Session) {
    forall h :: 0 <= h < |s.handlers| && Registered(s.handlers[h]) && s.handlers[h].closes == 0 ==>
      s.handlers[h].up.id in s.pending && s.pending[s.handlers[h].up.id] == h
  }

  // The id a handler is about to register is free.
  ghost predicate FreeOK(s: Session) {
    forall h :: 0 <= h < |s.handlers| && s.handlers[h].pc.Registering? ==> s.handlers[h].up.id !in s.pending
  }

  // -------------------------------------------------------------- ids do not collide

  lemma RegisterOpen(s: Session, h: nat)
    requires Books(s) && OpenOK(s) && FreeOK(s) && Paced(s) && At(s, h, Registering)
    ensures OpenOK(DoRegister(s, h)) && FreeOK(DoRegister(s, h))
  {
    var x := s.handlers[h];
    forall k | 0 <= k < |s.handlers| && k != h && s.handlers[k].pc.Registering?
      ensures s.handlers[k].up.id != x.up.id
    {
      var y := s.handlers[k];
      assert Role(s, x) && Role(s, y);
      TicksDistinct(x.tick, y.tick);
    }
  }

  lemma UnregisterOpen(s: Session, h: nat)
    requires Books(s) && OpenOK(s) && FreeOK(s) && At(s, h, Leaving)
    ensures OpenOK(DoUnregister(s, h)) && FreeOK(DoUnregister(s, h))
  {
    var x, t := s.handlers[h], DoUnregister(s, h);
    if x.up.id in s.pending {
      var k := s.pending[x.up.id];
      assert Owns(s, k, x.up.id);
      assert t.handlers[k].closes == 1;
    }
  }

  lemma MoveNotRegistering(x: Handler, m: Move, closed: bool, done: bool)
    ensures MoveHandler(x, m, closed, done).pc.Registering? ==> x.pc.Registering?
  {
  }

  lemma PutOpen(s: Session, h: nat, y: Handler)
    requires h < |s.handlers| && OpenOK(s) && FreeOK(s) && SameRole(s.handlers[h], y)
    requires y.pc.Registering? ==> s.handlers[h].pc.Registering?
    ensures OpenOK(Put(s, h, y)) && FreeOK(Put(s, h, y))
  {
  }

  lemma ActOpen(s: Session, h: nat, m: Move)
    requires Always(s) && OpenOK(s) && FreeOK(s)
    ensures OpenOK(Do(s, Act(h, m))) && FreeOK(Do(s, Act(h, m)))
  {
    if h < |s.handlers| {
      assert Shape(s.handlers[h]);
      MoveSameRole(s.handlers[h], m, s.closed, s.doneCloses > 0);
      MoveNotRegistering(s.handlers[h], m, s.closed, s.doneCloses > 0);
      PutOpen(s, h, MoveHandler(s.handlers[h], m, s.closed, s.doneCloses > 0));
    }
  }

  lemma StepOpen(s: Session, st: Step)
    requires Always(s) && OpenOK(s) && FreeOK(s) && Paced(s)
    ensures OpenOK(Do(s, st)) && FreeOK(Do(s, st))
  {
    match st
    case Register(h) => if At(s, h, Registering) { RegisterOpen(s, h); }
    case Unregister(h) => if At(s, h, Leaving) { UnregisterOpen(s, h); }
    case Act(h, m) => ActOpen(s, h, m);
    case _ => OtherOpen(s, st);
  }

  lemma OtherOpen(s: Session, st: Step)
    requires Books(s) && OpenOK(s) && FreeOK(s)
    requires !st.Register? && !st.Unregister? && !st.Act?
    ensures OpenOK(Do(s, st)) && FreeOK(Do(s, st))
  {
    if st.Arrive? || st.AddID? || st.CheckID? {
      BookOpen(s, st);
    } else if st.Enqueue? || st.Deliver? {
      FrameStepOpen(s, st);
    } else {
      QuietOpen(s, st);
    }
  }

  lemma BookOpen(s: Session, st: Step)
    requires Books(s) && OpenOK(s) && FreeOK(s) && (st.Arrive? || st.AddID? || st.CheckID?)
    ensures OpenOK(Do(s, st)) && FreeOK(Do(s, st))
  {
  }

  lemma FrameStepOpen(s: Session, st: Step)
    requires OpenOK(s) && FreeOK(s) && (st.Enqueue? || st.Deliver?)
    ensures OpenOK(Do(s, st)) && FreeOK(Do(s, st))
  {
  }

  lemma QuietOpen(s: Session, st: Step)
    requires OpenOK(s) && FreeOK(s)
    requires st.SendControl? || st.Write? || st.ReadFrame? || st.DropBlocked? || st.StopReading?
          || st.CallClose? || st.Swap? || st.Signal? || st.Drain? || st.Detach?
    ensures OpenOK(Do(s, st)) && FreeOK(Do(s, st))
  {
  }

  lemma {:induction false} OpenReachable(steps: seq<Step>)
    requires PacedRun(NEW_SESSION, steps)
    ensures OpenOK(Exec(NEW_SESSION, steps)) && FreeOK(Exec(NEW_SESSION, steps))
  {
    if steps != [] {
      var before := steps[..|steps| - 1];
      OpenReachable(before);
      AlwaysReachable(before);
      StepOpen(Exec(NEW_SESSION, before), steps[|steps| - 1]);
    }
  }

  /** A registered mailbox is in `pending` exactly while its done is open. */
  lemma PendingIffOpen(steps: seq<Step>, h: nat)
    requires PacedRun(NEW_SESSION, steps) && h < |Exec(NEW_SESSION, steps).handlers|
    requires Registered(Exec(NEW_SESSION, steps).handlers[h])
    ensures var s := Exec(NEW_SESSION, steps);
            var x := s.handlers[h];
            x.closes == 0 <==> x.up.id in s.pending && s.pending[x.up.id] == h
  {
    AlwaysReachable(steps);
    OpenReachable(steps);
    var s := Exec(NEW_SESSION, steps);
    if s.handlers[h].up.id in s.pending {
      assert Owns(s, s.pending[s.handlers[h].up.id], s.handlers[h].up.id);
    }
  }

  /** RegisterPending never overwrites a live mailbox. */
  lemma NeverOverwrites(steps: seq<Step>, h: nat)
    requires PacedRun(NEW_SESSION, steps) && At(Exec(NEW_SESSION, steps), h, Registering)
    ensures Exec(NEW_SESSION, steps).handlers[h].up.id !in Exec(NEW_SESSION, steps).pending
  {
    OpenReachable(steps);
  }

  lemma AddsGrow(s: Session, st: Step)
    ensures s.adds <= Do(s, st).adds
  {
  }

  // A session that hands out fewer than 2^32 ids is paced throughout.
  lemma {:induction false} FewAddsPaced(steps: seq<Step>)
    requires Exec(NEW_SESSION, steps).adds < ID_SPACE
    ensures PacedRun(NEW_SESSION, steps)
  {
    AlwaysReachable(steps);
    var s := Exec(NEW_SESSION, steps);
    forall h | 0 <= h < |s.handlers| && (s.handlers[h].pc.Checking? || s.handlers[h].pc.Registering?)
      ensures s.adds - s.handlers[h].tick < ID_SPACE
    {
      assert Role(s, s.handlers[h]);
    }
    if steps != [] {
      AddsGrow(Exec(NEW_SESSION, steps[..|steps| - 1]), steps[|steps| - 1]);
      FewAddsPaced(steps[..|steps| - 1]);
    }
  }

  // ------------------------------------------------------------------ nothing is lost

  ghost function Blocked(s: Session, h: nat): seq<Frame> {
    if s.reader.Routing? && s.reader.h == h then [s.reader.f] else []
  }

  /** Everything that has reached mailbox h, in order: consumed by its handler,
      waiting in ch, and blocked in routeResponse. */
  ghost function Got(s: Session, h: nat): seq<Frame>
    requires h < |s.handlers|
  {
    s.handlers[h].consumed + s.handlers[h].ch + Blocked(s, h)
  }

  ghost predicate Hears(s: Session, h: nat)
    requires h < |s.handlers|
  {
    var x := s.handlers[h];
    x.base <= |s.heard| && (Registered(x) || x.pc.Gone? ==>
      var all := Proj(s.heard[x.base..], x.up.id);
      Got(s, h) <= all && (Registered(x) && x.closes == 0 ==> Got(s, h) == all))
  }

  ghost predicate HeardOK(s: Session) {
    forall h :: 0 <= h < |s.handlers| ==> Hears(s, h)
  }

  lemma HeardSnoc(heard: seq<Frame>, f: Frame, base: nat, i: ReqID)
    requires base <= |heard|
    ensures Proj((heard + [f])[base..], i) == Proj(heard[base..], i) + if Carries(f, i) then [f] else []
  {
    assert (heard + [f])[base..] == heard[base..] + [f];
    ProjSnoc(heard[base..], f, i);
  }

  lemma ReadHears(s: Session, f: Frame, h: nat)
    requires Books(s) && OpenOK(s) && h < |s.handlers| && Hears(s, h)
    requires s.reader.Idle? && (IsReply(f) || f.Control?)
    ensures Hears(DoRead(s, f), h)
  {
    var x := s.handlers[h];
    HeardSnoc(s.heard, f, x.base, x.up.id);
    if IsReply(f) && f.id in s.pending {
      assert Owns(s, s.pending[f.id], f.id);
    }
  }

  // A step that leaves handler k's frames, base and id alone, and opens nothing.
  lemma KeepHears(s: Session, t: Session, k: nat)
    requires k < |s.handlers| && k < |t.handlers| && Hears(s, k)
    requires t.heard == s.heard && t.reader == s.reader
    requires var x, y := s.handlers[k], t.handlers[k];
             && y.consumed + y.ch == x.consumed + x.ch && y.base == x.base && y.up.id == x.up.id
             && (Registered(y) || y.pc.Gone? ==> Registered(x) || x.pc.Gone?)
             && (Registered(y) && y.closes == 0 ==> Registered(x) && x.closes == 0)
    ensures Hears(t, k)
  {
  }

  lemma MoveKeepsFrames(x: Handler, m: Move, closed: bool, done: bool)
    ensures var y := MoveHandler(x, m, closed, done);
            y.consumed + y.ch == x.consumed + x.ch
  {
  }

  lemma ActHears(s: Session, h: nat, m: Move, k: nat)
    requires Shapes(s) && h < |s.handlers| && k < |s.handlers| && Hears(s, k)
    ensures Hears(Do(s, Act(h, m)), k)
  {
    MoveKeepsFrames(s.handlers[h], m, s.closed, s.doneCloses > 0);
    MoveSameRole(s.handlers[h], m, s.closed, s.doneCloses > 0);
    KeepHears(s, Do(s, Act(h, m)), k);
  }

  lemma AcceptedKeepsFrames(x: Handler)
    requires x.pc.Sending?
    ensures var y := Accepted(x);
            y.consumed == x.consumed && y.ch == x.ch && y.base == x.base && y.up.id == x.up.id && y.closes == x.closes
    ensures Registered(Accepted(x))
  {
  }

  lemma EnqueueHears(s: Session, h: nat, k: nat)
    requires k < |s.handlers| && Hears(s, k)
    ensures Hears(Do(s, Enqueue(h)), k)
  {
    if h < |s.handlers| && s.handlers[h].pc.Sending? {
      AcceptedKeepsFrames(s.handlers[h]);
    }
    KeepHears(s, Do(s, Enqueue(h)), k);
  }

  lemma DeliverHears(s: Session, k: nat)
    requires Books(s) && k < |s.handlers| && Hears(s, k)
    ensures Hears(Do(s, Deliver), k)
  {
    var t := Do(s, Deliver);
    if t != s {
      assert Got(t, k) == Got(s, k) by {
        var x := s.handlers[k];
        assert x.consumed + (x.ch + [s.reader.f]) + [] == x.consumed + x.ch + [s.reader.f];
      }
    }
  }

  lemma DropHears(s: Session, k: nat)
    requires Books(s) && k < |s.handlers| && Hears(s, k)
    ensures Hears(Do(s, DropBlocked), k)
  {
    var x := s.handlers[k];
    assert x.consumed + x.ch + [] == x.consumed + x.ch <= Got(s, k);
  }

  lemma BookHears(s: Session, st: Step, k: nat)
    requires Books(s) && k < |s.handlers| && Hears(s, k) && (st.AddID? || st.CheckID?)
    ensures Hears(Do(s, st), k)
  {
  }

  lemma RegisterHears(s: Session, h: nat, k: nat)
    requires Always(s) && k < |s.handlers| && Hears(s, k)
    ensures Hears(Do(s, Register(h)), k)
  {
    if At(s, h, Registering) && k == h {
      assert Shape(s.handlers[k]) && Role(s, s.handlers[k]);
      assert s.heard[|s.heard|..] == [];
    }
  }

  lemma UnregisterHears(s: Session, h: nat, k: nat)
    requires k < |s.handlers| && Hears(s, k)
    ensures Hears(Do(s, Unregister(h)), k)
  {
    KeepHears(s, Do(s, Unregister(h)), k);
  }

  lemma QuietHears(s: Session, st: Step, k: nat)
    requires Books(s) && k < |s.handlers| && Hears(s, k)
    requires st.SendControl? || st.Write? || st.StopReading? || st.CallClose? || st.Swap? || st.Signal? ||
             st.Drain? || st.Detach?
    ensures Hears(Do(s, st), k)
  {
  }

  lemma HandlerCount(s: Session, st: Step)
    requires !st.Arrive?
    ensures |Do(s, st).handlers| == |s.handlers|
  {
  }

  lemma StepHears(s: Session, st: Step, k: nat)
    requires Always(s) && OpenOK(s) && k < |s.handlers| && Hears(s, k) && !st.Arrive?
    ensures k < |Do(s, st).handlers| && Hears(Do(s, st), k)
  {
    HandlerCount(s, st);
    match st
    case AddID(_) => BookHears(s, st, k);
    case CheckID(_) => BookHears(s, st, k);
    case Register(h) => RegisterHears(s, h, k);
    case Unregister(h) => UnregisterHears(s, h, k);
    case Act(h, m) => if h < |s.handlers| { ActHears(s, h, m, k); }
    case Enqueue(h) => EnqueueHears(s, h, k);
    case ReadFrame(f) => if s.reader.Idle? && (IsReply(f) || f.Control?) { ReadHears(s, f, k); }
    case Deliver => DeliverHears(s, k);
    case DropBlocked => DropHears(s, k);
    case _ => QuietHears(s, st, k);
  }

  lemma ArriveHeard(s: Session, c: Caller)
    requires ReaderOK(s) && HeardOK(s)
    ensures HeardOK(Do(s, Arrive(c)))
  {
    var t := Do(s, Arrive(c));
    forall k | 0 <= k < |t.handlers| ensures Hears(t, k) {
      if k < |s.handlers| { assert Hears(s, k); }
    }
  }

  lemma StepHeard(s: Session, st: Step)
    requires Always(s) && OpenOK(s) && HeardOK(s)
    ensures HeardOK(Do(s, st))
  {
    if st.Arrive? {
      ArriveHeard(s, st.caller);
    } else {
      HandlerCount(s, st);
      forall k | 0 <= k < |Do(s, st).handlers| ensures Hears(Do(s, st), k) {
        StepHears(s, st, k);
      }
    }
  }

  lemma {:induction false} HeardReachable(steps: seq<Step>)
    requires PacedRun(NEW_SESSION, steps)
    ensures HeardOK(Exec(NEW_SESSION, steps))
  {
    if steps != [] {
      var before := steps[..|steps| - 1];
      HeardReachable(before);
      AlwaysReachable(before);
      OpenReachable(before);
      StepHeard(Exec(NEW_SESSION, before), steps[|steps| - 1]);
    }
  }

  /** Backpressure loses and reorders nothing: while a mailbox's done is open, the
      frames its handler consumed, the at most 16 in ch and the one blocked in
      routeResponse are exactly the frames of its id read since it registered;
      afterwards they are still a prefix of them. */
  lemma NothingLost(steps: seq<Step>, h: nat)
    requires PacedRun(NEW_SESSION, steps) && h < |Exec(NEW_SESSION, steps).handlers|
    requires var x := Exec(NEW_SESSION, steps).handlers[h]; Registered(x) || x.pc.Gone?
    ensures var s := Exec(NEW_SESSION, steps);
            var x := s.handlers[h];
            && |x.ch| <= MAILBOX_CAP && x.base <= |s.heard|
            && Got(s, h) <= Proj(s.heard[x.base..], x.up.id)
            && (Registered(x) && x.closes == 0 ==> Got(s, h) == Proj(s.heard[x.base..], x.up.id))
  {
    AlwaysReachable(steps);
    HeardReachable(steps);
    var s := Exec(NEW_SESSION, steps);
    assert Hears(s, h) && Role(s, s.handlers[h]);
  }

  // ------------------------------------------------------------- nobody is left waiting

  // A handler whose request_start is still to pass closed.Load(), or was refused.
  ghost predicate NotUnderway(x: Handler) {
    !x.up.started && !(x.pc.Sending? && x.pc.next.Start? && x.pc.gated)
  }

  ghost predicate DrainOK(s: Session) {
    Emptied(s) ==> forall h :: 0 <= h < |s.handlers| && Registered(s.handlers[h]) && s.handlers[h].closes == 0 ==>
      NotUnderway(s.handlers[h])
  }

  lemma ActDrain(s: Session, h: nat, m: Move)
    requires Always(s) && DrainOK(s)
    ensures DrainOK(Do(s, Act(h, m)))
  {
    if h < |s.handlers| && Emptied(s) {
      var x := s.handlers[h];
      MoveSameRole(x, m, s.closed, s.doneCloses > 0);
      if Registered(x) && x.closes == 0 {
        MoveNotUnderway(x, m, s.doneCloses > 0);
      }
    }
  }

  lemma MoveNotUnderway(x: Handler, m: Move, done: bool)
    requires Shape(x) && NotUnderway(x)
    ensures NotUnderway(MoveHandler(x, m, true, done))
  {
  }

  lemma EnqueueDrain(s: Session, h: nat)
    requires Always(s) && DrainOK(s)
    ensures DrainOK(Do(s, Enqueue(h)))
  {
    if h < |s.handlers| && Emptied(s) {
      assert Shape(s.handlers[h]);
    }
  }

  lemma BookDrain(s: Session, st: Step)
    requires Books(s) && DrainOK(s)
    requires st.Arrive? || st.AddID? || st.CheckID? || st.Unregister?
    ensures DrainOK(Do(s, st))
  {
  }

  lemma RegisterDrain(s: Session, h: nat)
    requires Always(s) && DrainOK(s)
    ensures DrainOK(Do(s, Register(h)))
  {
    if At(s, h, Registering) {
      assert Shape(s.handlers[h]);
    }
  }

  lemma CloserDrain(s: Session, st: Step)
    requires Books(s) && DrainOK(s) && OpenOK(s)
    requires st.CallClose? || st.Swap? || st.Signal? || st.Drain? || st.Detach?
    ensures DrainOK(Do(s, st))
  {
  }

  lemma QuietDrain(s: Session, st: Step)
    requires DrainOK(s)
    requires st.SendControl? || st.Write? || st.ReadFrame? || st.Deliver? || st.DropBlocked? || st.StopReading?
    ensures DrainOK(Do(s, st))
  {
  }

  lemma StepDrain(s: Session, st: Step)
    requires Always(s) && OpenOK(s) && DrainOK(s)
    ensures DrainOK(Do(s, st))
  {
    match st
    case Register(h) => RegisterDrain(s, h);
    case Act(h, m) => ActDrain(s, h, m);
    case Enqueue(h) => EnqueueDrain(s, h);
    case Arrive(_) => BookDrain(s, st);
    case AddID(_) => BookDrain(s, st);
    case CheckID(_) => BookDrain(s, st);
    case Unregister(_) => BookDrain(s, st);
    case CallClose => CloserDrain(s, st);
    case Swap(_) => CloserDrain(s, st);
    case Signal(_) => CloserDrain(s, st);
    case Drain(_) => CloserDrain(s, st);
    case Detach(_) => CloserDrain(s, st);
    case _ => QuietDrain(s, st);
  }

  lemma {:induction false} DrainReachable(steps: seq<Step>)
    requires PacedRun(NEW_SESSION, steps)
    ensures DrainOK(Exec(NEW_SESSION, steps))
  {
    if steps != [] {
      var before := steps[..|steps| - 1];
      DrainReachable(before);
      AlwaysReachable(before);
      OpenReachable(before);
      StepDrain(Exec(NEW_SESSION, before), steps[|steps| - 1]);
    }
  }

  /** No handler is left waiting: once close() has emptied `pending`, a registered
      handler either has its mailbox's done closed, or its request_start has not
      been sent and can only be refused. */
  lemma NobodyLeftWaiting(steps: seq<Step>, h: nat)
    requires PacedRun(NEW_SESSION, steps) && Emptied(Exec(NEW_SESSION, steps))
    requires h < |Exec(NEW_SESSION, steps).handlers| && Registered(Exec(NEW_SESSION, steps).handlers[h])
    ensures var s := Exec(NEW_SESSION, steps);
            var x := s.handlers[h];
            && (x.closes == 1 || NotUnderway(x))
            && (x.pc.AwaitFirst? || x.pc.Streaming? ==>
                  x.closes == 1 && Do(s, Act(h, SeeMailboxDone)).handlers[h].pc.Leaving?)
            && (x.pc.Sending? && x.pc.next.Start? && !x.pc.gated ==>
                  Do(s, Act(h, Gate)).handlers[h].pc == Sending(Cancel(x.up.id), false,
                    Verdict(BadGateway(UNREACHABLE))))
  {
    AlwaysReachable(steps);
    DrainReachable(steps);
    WaiterReleased(Exec(NEW_SESSION, steps), h);
  }

  lemma WaiterReleased(s: Session, h: nat)
    requires Always(s) && DrainOK(s) && Emptied(s) && h < |s.handlers| && Registered(s.handlers[h])
    ensures var x := s.handlers[h];
            && (x.closes == 1 || NotUnderway(x))
            && (x.pc.AwaitFirst? || x.pc.Streaming? ==>
                  x.closes == 1 && Do(s, Act(h, SeeMailboxDone)).handlers[h].pc.Leaving?)
            && (x.pc.Sending? && x.pc.next.Start? && !x.pc.gated ==>
                  Do(s, Act(h, Gate)).handlers[h].pc == Sending(Cancel(x.up.id), false,
                    Verdict(BadGateway(UNREACHABLE))))
  {
    assert Shape(s.handlers[h]) && Role(s, s.handlers[h]);
  }
}
