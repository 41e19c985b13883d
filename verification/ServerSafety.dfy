/** What holds of a server session in every reachable state, whatever the client
    sends and however handlers, read loop, writer and closers interleave. */
module ServerSafety {
  import opened Proto
  import opened Relay
  import opened Server
  import opened HandlerShape

  // ------------------------------------------------------------- the invariant

  predicate HasId(x: Handler) {
    !x.pc.Fresh?
  }

  // Between RegisterPending and UnregisterPending.
  predicate Registered(x: Handler) {
    x.pc.Sending? || x.pc.Reading? || x.pc.AwaitFirst? || x.pc.Streaming? || x.pc.Leaving?
  }

  ghost predicate Role(s: Session, x: Handler) {
    && (HasId(x) ==> 1 <= x.tick <= s.adds && x.up.id == x.tick % ID_SPACE)
    && (!Registered(x) && !x.pc.Gone? ==> x.closes == 0 && x.ch == [])
    && x.closes <= 1 && |x.ch| <= MAILBOX_CAP && x.base <= |s.heard|
  }

  ghost predicate Ticks(s: Session) {
    forall h, k :: 0 <= h < k < |s.handlers| && HasId(s.handlers[h]) && HasId(s.handlers[k]) ==>
      s.handlers[h].tick != s.handlers[k].tick
  }

  ghost predicate Owns(s: Session, h: nat, i: ReqID) {
    h < |s.handlers| && Registered(s.handlers[h]) && s.handlers[h].up.id == i && s.handlers[h].closes == 0
  }

  ghost predicate ClosersOK(s: Session) {
    && s.closed == s.winner.Some?
    && (forall c :: 0 <= c < |s.closers| && s.winner != Some(c) ==> s.closers[c].Called? || s.closers[c].Lost?)
    && (s.winner.Some? ==>
          s.winner.value < |s.closers| && !s.closers[s.winner.value].Called? && !s.closers[s.winner.value].Lost?)
    && s.doneCloses == if s.winner.Some? && !s.closers[s.winner.value].Won? then 1 else 0
  }

  ghost predicate ReaderOK(s: Session) {
    s.reader.Routing? ==>
      && s.reader.h < |s.handlers|
      && IsReply(s.reader.f) && s.reader.f.id == s.handlers[s.reader.h].up.id
      && (Registered(s.handlers[s.reader.h]) || s.handlers[s.reader.h].pc.Gone?)
  }

  ghost predicate Shapes(s: Session) {
    forall h :: 0 <= h < |s.handlers| ==> Shape(s.handlers[h])
  }

  ghost predicate Roles(s: Session) {
    forall h :: 0 <= h < |s.handlers| ==> Role(s, s.handlers[h])
  }

  ghost predicate PendingOK(s: Session) {
    forall i :: i in s.pending ==> Owns(s, s.pending[i], i)
  }

  ghost predicate Books(s: Session) {
    && s.nextID == s.adds % ID_SPACE
    && |s.sendQ| <= SEND_QUEUE_CAP
    && Roles(s) && Ticks(s) && PendingOK(s) && ReaderOK(s) && ClosersOK(s)
  }

  ghost predicate Always(s: Session) {
    Shapes(s) && Books(s)
  }

  // ---------------------------------------------- steps that keep a handler's role

  ghost predicate SameRole(x: Handler, y: Handler) {
    && y.up.id == x.up.id && y.tick == x.tick && y.closes == x.closes && y.base == x.base
    && (HasId(y) ==> HasId(x)) && Registered(x) == Registered(y) && x.pc.Gone? == y.pc.Gone?
  }

  lemma PutShapes(s: Session, h: nat, y: Handler)
    requires Shapes(s) && h < |s.handlers| && Shape(y)
    ensures Shapes(Put(s, h, y))
  {
  }

  lemma PutRoles(s: Session, h: nat, y: Handler)
    requires Roles(s) && Ticks(s) && h < |s.handlers| && SameRole(s.handlers[h], y) && Role(s, y)
    ensures Roles(Put(s, h, y)) && Ticks(Put(s, h, y))
  {
    var t := Put(s, h, y);
    forall k | 0 <= k < |t.handlers| ensures Role(t, t.handlers[k]) {
      assert k != h ==> Role(s, s.handlers[k]);
    }
  }

  lemma PutBooks(s: Session, h: nat, y: Handler)
    requires PendingOK(s) && ReaderOK(s) && h < |s.handlers| && SameRole(s.handlers[h], y)
    ensures PendingOK(Put(s, h, y)) && ReaderOK(Put(s, h, y))
  {
    var t := Put(s, h, y);
    forall i | i in t.pending ensures Owns(t, t.pending[i], i) {
      assert Owns(s, s.pending[i], i);
    }
  }

  lemma PutAlways(s: Session, h: nat, y: Handler)
    requires Always(s) && h < |s.handlers| && SameRole(s.handlers[h], y)
    requires Shape(y) && Role(s, y)
    ensures Always(Put(s, h, y))
  {
    PutShapes(s, h, y);
    PutRoles(s, h, y);
    PutBooks(s, h, y);
  }

  // Steps that leave the handlers, the ids and `pending` alone.
  lemma FrameBooks(s: Session, t: Session)
    requires Roles(s) && Ticks(s) && PendingOK(s)
    requires t.handlers == s.handlers && t.pending == s.pending && t.adds == s.adds && |s.heard| <= |t.heard|
    ensures Roles(t) && Ticks(t) && PendingOK(t)
  {
    forall h | 0 <= h < |t.handlers| ensures Role(t, t.handlers[h]) {
      assert Role(s, s.handlers[h]);
    }
    forall i | i in t.pending ensures Owns(t, t.pending[i], i) {
      assert Owns(s, s.pending[i], i);
    }
  }

  lemma RejectedSameRole(x: Handler, m: Move, closed: bool, done: bool)
    requires Shape(x) && (m.Gate? || m.SeeSessionDone? || m.GiveUp?)
    ensures SameRole(x, MoveHandler(x, m, closed, done)) && MoveHandler(x, m, closed, done).ch == x.ch
  {
  }

  lemma ReadSameRole(x: Handler, m: Move, closed: bool, done: bool)
    requires Shape(x) && m.ReadBody?
    ensures SameRole(x, MoveHandler(x, m, closed, done)) && MoveHandler(x, m, closed, done).ch == x.ch
  {
  }

  lemma MoveSameRole(x: Handler, m: Move, closed: bool, done: bool)
    requires Shape(x)
    ensures SameRole(x, MoveHandler(x, m, closed, done))
    ensures var y := MoveHandler(x, m, closed, done);
            y.ch == x.ch || (Registered(x) && x.ch != [] && y.ch == x.ch[1..])
  {
    if m.Gate? || m.SeeSessionDone? || m.GiveUp? {
      RejectedSameRole(x, m, closed, done);
    } else if m.ReadBody? {
      ReadSameRole(x, m, closed, done);
    }
  }

  lemma ActAlways(s: Session, h: nat, m: Move)
    requires Always(s)
    ensures Always(Do(s, Act(h, m)))
  {
    if h < |s.handlers| {
      var x := s.handlers[h];
      MoveShape(x, m, s.closed, s.doneCloses > 0);
      MoveSameRole(x, m, s.closed, s.doneCloses > 0);
      PutAlways(s, h, MoveHandler(x, m, s.closed, s.doneCloses > 0));
    }
  }

  lemma EnqueueAlways(s: Session, h: nat)
    requires Always(s)
    ensures Always(Do(s, Enqueue(h)))
  {
    if h < |s.handlers| && s.handlers[h].pc.Sending? && s.handlers[h].pc.gated && |s.sendQ| < SEND_QUEUE_CAP {
      AcceptedShape(s.handlers[h]);
      AcceptedSameRole(s.handlers[h]);
      PutAlways(s, h, Accepted(s.handlers[h]));
      QueuedAlways(Put(s, h, Accepted(s.handlers[h])), s.handlers[h].pc.f, h);
    }
  }

  lemma AcceptedSameRole(x: Handler)
    requires Shape(x) && x.pc.Sending?
    ensures SameRole(x, Accepted(x)) && Accepted(x).ch == x.ch
  {
  }

  lemma QueuedAlways(s: Session, f: Frame, h: nat)
    requires Always(s) && |s.sendQ| < SEND_QUEUE_CAP
    ensures Always(s.(sendQ := s.sendQ + [f], sent := s.sent + [f], authors := s.authors + [Some(h)]))
  {
    FrameBooks(s, s.(sendQ := s.sendQ + [f], sent := s.sent + [f], authors := s.authors + [Some(h)]));
  }

  lemma DeliveredHandler(s: Session, x: Handler, f: Frame)
    requires Shape(x) && Role(s, x) && (Registered(x) || x.pc.Gone?) && |x.ch| < MAILBOX_CAP
    ensures var y := x.(ch := x.ch + [f]); Shape(y) && Role(s, y) && SameRole(x, y)
  {
  }

  lemma DeliverAlways(s: Session)
    requires Always(s)
    ensures Always(Do(s, Deliver))
  {
    if s.reader.Routing? && |s.handlers[s.reader.h].ch| < MAILBOX_CAP {
      var x := s.handlers[s.reader.h];
      DeliveredHandler(s, x, s.reader.f);
      PutAlways(s, s.reader.h, x.(ch := x.ch + [s.reader.f]));
      IdleReader(Put(s, s.reader.h, x.(ch := x.ch + [s.reader.f])));
    }
  }

  lemma IdleReader(s: Session)
    requires Always(s)
    ensures Always(s.(reader := Idle))
  {
    FrameBooks(s, s.(reader := Idle));
  }

  lemma QueueBooks(s: Session, st: Step)
    requires Books(s) && (st.SendControl? || st.Write? || st.DropBlocked? || st.StopReading?)
    ensures Books(Do(s, st)) && Do(s, st).handlers == s.handlers
  {
    FrameBooks(s, Do(s, st));
  }

  lemma ReadReader(s: Session, f: Frame)
    requires PendingOK(s) && (IsReply(f) || f.Control?)
    ensures ReaderOK(DoRead(s, f))
  {
    if IsReply(f) && f.id in s.pending {
      assert Owns(s, s.pending[f.id], f.id);
    }
  }

  lemma ReadBooks(s: Session, f: Frame)
    requires Books(s) && (IsReply(f) || f.Control?)
    ensures Books(DoRead(s, f)) && DoRead(s, f).handlers == s.handlers
  {
    FrameBooks(s, DoRead(s, f));
    ReadReader(s, f);
  }

  // ---------------------------------------------------------------- ids and pending

  lemma NewShape(c: Caller)
    ensures Shape(NewHandler(c))
  {
    assert Render([]) == [] && Concat([]) == [];
  }

  lemma ArriveBooks(s: Session, c: Caller)
    requires Books(s)
    ensures Books(Do(s, Arrive(c)))
  {
    var t := Do(s, Arrive(c));
    assert t.handlers[|s.handlers|] == NewHandler(c);
    forall h | 0 <= h < |t.handlers| ensures Role(t, t.handlers[h]) {
      if h < |s.handlers| {
        assert Role(s, s.handlers[h]);
      }
    }
    forall i | i in t.pending ensures Owns(t, t.pending[i], i) {
      assert Owns(s, s.pending[i], i);
    }
  }

  lemma ArriveAlways(s: Session, c: Caller)
    requires Always(s)
    ensures Always(Do(s, Arrive(c)))
  {
    NewShape(c);
    ArriveBooks(s, c);
  }

  lemma SuccTick(adds: nat)
    ensures (adds % ID_SPACE + 1) % ID_SPACE == (adds + 1) % ID_SPACE
  {
  }

  lemma AddRoles(s: Session, h: nat)
    requires Roles(s) && Ticks(s) && s.nextID == s.adds % ID_SPACE && At(s, h, Fresh)
    ensures Roles(DoAdd(s, h)) && Ticks(DoAdd(s, h))
  {
    SuccTick(s.adds);
    var t := DoAdd(s, h);
    assert Role(s, s.handlers[h]);
    forall k | 0 <= k < |t.handlers| ensures Role(t, t.handlers[k]) {
      assert Role(s, s.handlers[k]);
    }
    forall k | 0 <= k < |s.handlers| && HasId(s.handlers[k]) ensures s.handlers[k].tick != s.adds + 1 {
      assert Role(s, s.handlers[k]);
    }
  }

  lemma AddShapes(s: Session, h: nat)
    requires Shapes(s) && At(s, h, Fresh)
    ensures Shapes(DoAdd(s, h))
  {
    assert Shape(s.handlers[h]);
  }

  lemma AddAlways(s: Session, h: nat)
    requires Always(s)
    ensures Always(Do(s, AddID(h)))
  {
    if At(s, h, Fresh) {
      AddShapes(s, h);
      AddRoles(s, h);
      AddBooks(s, h);
    }
  }

  lemma AddBooks(s: Session, h: nat)
    requires Books(s) && At(s, h, Fresh)
    ensures var t := DoAdd(s, h);
            PendingOK(t) && ReaderOK(t) && ClosersOK(t) && t.nextID == t.adds % ID_SPACE
  {
    SuccTick(s.adds);
    var t := DoAdd(s, h);
    forall i | i in t.pending ensures Owns(t, t.pending[i], i) {
      assert Owns(s, s.pending[i], i);
    }
  }

  lemma CheckedHandler(s: Session, x: Handler, taken: bool)
    requires Shape(x) && Role(s, x) && x.pc.Checking?
    ensures var y := x.(pc := if taken then Fresh else Registering); Shape(y) && Role(s, y) && SameRole(x, y)
  {
  }

  lemma CheckAlways(s: Session, h: nat)
    requires Always(s)
    ensures Always(Do(s, CheckID(h)))
  {
    if At(s, h, Checking) {
      var x := s.handlers[h];
      CheckedHandler(s, x, x.up.id in s.pending);
      PutAlways(s, h, x.(pc := if x.up.id in s.pending then Fresh else Registering));
    }
  }

  lemma RegisterAlways(s: Session, h: nat)
    requires Always(s)
    ensures Always(Do(s, Register(h)))
  {
    if At(s, h, Registering) {
      assert Shape(s.handlers[h]);
      RegisterBooks(s, h);
    }
  }

  lemma RegisterBooks(s: Session, h: nat)
    requires Books(s) && At(s, h, Registering)
    ensures Books(DoRegister(s, h))
  {
    var t := DoRegister(s, h);
    assert Role(s, s.handlers[h]);
    forall i | i in t.pending ensures Owns(t, t.pending[i], i) {
      if i != s.handlers[h].up.id {
        assert Owns(s, s.pending[i], i);
      }
    }
  }

  lemma UnregisterAlways(s: Session, h: nat)
    requires Always(s)
    ensures Always(Do(s, Unregister(h)))
  {
    if At(s, h, Leaving) {
      UnregisterPendingOK(s, h);
      UnregisterRoles(s, h);
      UnregisterShapes(s, h);
    }
  }

  lemma UnregisterRoles(s: Session, h: nat)
    requires Roles(s) && Ticks(s) && PendingOK(s) && ReaderOK(s) && At(s, h, Leaving)
    ensures var t := DoUnregister(s, h);
            Roles(t) && Ticks(t) && ReaderOK(t)
  {
    var x, t := s.handlers[h], DoUnregister(s, h);
    if x.up.id in s.pending {
      assert Owns(s, s.pending[x.up.id], x.up.id);
    }
    forall k | 0 <= k < |t.handlers|
      ensures Role(t, t.handlers[k]) && t.handlers[k].tick == s.handlers[k].tick &&
              HasId(s.handlers[k]) == HasId(t.handlers[k])
    {
      assert Role(s, s.handlers[k]);
    }
  }

  lemma UnregisterShapes(s: Session, h: nat)
    requires Shapes(s) && At(s, h, Leaving)
    ensures Shapes(DoUnregister(s, h))
  {
    var t := DoUnregister(s, h);
    forall k | 0 <= k < |t.handlers| ensures Shape(t.handlers[k]) {
      LeaveShape(s.handlers[k], t.handlers[k]);
    }
  }

  lemma LeaveShape(x: Handler, y: Handler)
    requires Shape(x) && y == x.(pc := y.pc, closes := y.closes)
    requires y.pc == x.pc || (x.pc.Leaving? && y.pc.Gone?)
    ensures Shape(y)
  {
  }

  lemma UnregisterPendingOK(s: Session, h: nat)
    requires PendingOK(s) && At(s, h, Leaving)
    ensures PendingOK(DoUnregister(s, h))
  {
    var x, t := s.handlers[h], DoUnregister(s, h);
    forall i | i in t.pending ensures Owns(t, t.pending[i], i) {
      assert Owns(s, s.pending[i], i);
      if x.up.id in s.pending {
        assert Owns(s, s.pending[x.up.id], x.up.id);
      }
    }
  }

  // ---------------------------------------------------------------------- closing

  lemma DrainShapes(s: Session)
    requires Shapes(s)
    ensures forall k :: 0 <= k < |s.handlers| ==> Shape(CloseMailboxes(s)[k])
  {
    forall k | 0 <= k < |s.handlers| ensures Shape(CloseMailboxes(s)[k]) {
      LeaveShape(s.handlers[k], CloseMailboxes(s)[k]);
    }
  }

  lemma DrainRoles(s: Session)
    requires Roles(s) && PendingOK(s)
    ensures forall k :: 0 <= k < |s.handlers| ==> Role(s, CloseMailboxes(s)[k])
  {
    forall k | 0 <= k < |s.handlers| ensures Role(s, CloseMailboxes(s)[k]) {
      assert Role(s, s.handlers[k]);
      if k in s.pending.Values {
        var i :| i in s.pending && s.pending[i] == k;
        assert Owns(s, k, i);
      }
    }
  }

  lemma DrainAlways(s: Session, c: nat)
    requires Always(s)
    ensures Always(Do(s, Drain(c)))
  {
    if CloserAt(s, c, Signalled) {
      DrainShapes(s);
      DrainRoles(s);
      DrainBooks(s, c);
    }
  }

  lemma DrainBooks(s: Session, c: nat)
    requires Books(s) && CloserAt(s, c, Signalled)
    requires forall k :: 0 <= k < |s.handlers| ==> Role(s, CloseMailboxes(s)[k])
    ensures Books(Do(s, Drain(c)))
  {
    var t := Do(s, Drain(c));
    forall k | 0 <= k < |t.handlers|
      ensures Role(t, t.handlers[k]) && t.handlers[k].tick == s.handlers[k].tick &&
              HasId(t.handlers[k]) == HasId(s.handlers[k])
    {
      assert Role(s, CloseMailboxes(s)[k]);
    }
  }

  lemma CloseBooks(s: Session, st: Step)
    requires Books(s) && (st.CallClose? || st.Swap? || st.Signal? || st.Detach?)
    ensures Books(Do(s, st)) && Do(s, st).handlers == s.handlers
  {
    FrameBooks(s, Do(s, st));
  }

  // -------------------------------------------------------------------- all steps

  lemma StepAlways(s: Session, st: Step)
    requires Always(s)
    ensures Always(Do(s, st))
  {
    match st
    case Arrive(c) => ArriveAlways(s, c);
    case AddID(h) => AddAlways(s, h);
    case CheckID(h) => CheckAlways(s, h);
    case Register(h) => RegisterAlways(s, h);
    case Unregister(h) => UnregisterAlways(s, h);
    case Act(h, m) => ActAlways(s, h, m);
    case Enqueue(h) => EnqueueAlways(s, h);
    case Deliver => DeliverAlways(s);
    case Drain(c) => DrainAlways(s, c);
    case SendControl => QueueBooks(s, st);
    case Write(_) => QueueBooks(s, st);
    case ReadFrame(f) => if s.reader.Idle? && (IsReply(f) || f.Control?) { ReadBooks(s, f); }
    case DropBlocked => QueueBooks(s, st);
    case StopReading => QueueBooks(s, st);
    case _ => CloseBooks(s, st);
  }

  lemma {:induction false} AlwaysReachable(steps: seq<Step>)
    ensures Always(Exec(NEW_SESSION, steps))
  {
    if steps != [] {
      AlwaysReachable(steps[..|steps| - 1]);
      StepAlways(Exec(NEW_SESSION, steps[..|steps| - 1]), steps[|steps| - 1]);
    }
  }

  // ---------------------------------------------------------------------- theorems

  /** No `done` channel is closed twice: not a mailbox's, by any interleaving of
      UnregisterPending and close, and not the session's, by any number of close
      calls.  (A second close would panic.) */
  lemma CloseOnce(steps: seq<Step>)
    ensures var s := Exec(NEW_SESSION, steps);
            s.doneCloses <= 1 && forall h :: 0 <= h < |s.handlers| ==> s.handlers[h].closes <= 1
  {
    AlwaysReachable(steps);
  }

  /** Relay traces are well formed, whatever the client sends: a handler writes one
      status, before any body byte and before it returns; only a handler that sent
      its whole request and got no frame answers 504; no hop-by-hop name goes either
      way, and everything else of the caller's request goes unchanged. */
  lemma RelayTraces(steps: seq<Step>, h: nat)
    requires h < |Exec(NEW_SESSION, steps).handlers|
    ensures var x := Exec(NEW_SESSION, steps).handlers[h];
            && (x.pc.Gone? ==> x.trace != [])
            && (x.trace != [] ==> WellFormed(x.trace))
            && (x.trace == [Refusal(504, TIMED_OUT)] ==> Whole(x.up) && x.consumed == [])
            && (forall k :: k in x.up.head.headers ==> !IsHopByHop(k))
            && (forall k :: k in x.caller.headers && !IsHopByHop(k) ==>
                  k in x.up.head.headers && x.up.head.headers[k] == x.caller.headers[k])
  {
    AlwaysReachable(steps);
    var x := Exec(NEW_SESSION, steps).handlers[h];
    assert Shape(x);
    ShapeWellFormed(x);
    if x.trace == [Refusal(504, TIMED_OUT)] {
      TimeoutAfterUpload(x);
    }
  }

  lemma FrameNeverTimesOut(x: Handler)
    requires Shape(x) && x.consumed != []
    ensures x.trace != [Refusal(504, TIMED_OUT)]
  {
    if x.consumed[0].ResponseStart? {
      RenderOpen(x.consumed);
      assert x.trace[0] == Render(x.consumed)[0];
    } else {
      RenderRefused(x.consumed);
      assert x.trace[0] == Render(x.consumed)[0];
    }
  }

  lemma TimeoutAfterUpload(x: Handler)
    requires Shape(x) && x.trace == [Refusal(504, TIMED_OUT)]
    ensures Whole(x.up) && x.consumed == []
  {
    if x.consumed == [] {
      assert x.tail == [Refusal(504, TIMED_OUT)];
    } else {
      FrameNeverTimesOut(x);
    }
  }

  /** A handler that has returned is no longer pending. */
  lemma GoneNotPending(steps: seq<Step>, h: nat)
    requires At(Exec(NEW_SESSION, steps), h, Gone)
    ensures h !in Exec(NEW_SESSION, steps).pending.Values
  {
    AlwaysReachable(steps);
    var s := Exec(NEW_SESSION, steps);
    if h in s.pending.Values {
      assert false;
    }
  }
}
