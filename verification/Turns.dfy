/** Handlers that hold the same id, one after another, on a session whose counter
    has wrapped any number of times: their uploads never mix on the queue. */
module Turns {
  import opened Proto
  import opened Server
  import opened HandlerShape
  import opened ServerSafety
  import opened Mailboxes
  import opened SentUploads

  // Registered on a closed session, with nothing sent and nothing past the gate.
  predicate Late(x: Handler) {
    !x.up.started && !x.up.cancelled && !(x.pc.Sending? && x.pc.gated)
  }

  ghost predicate ClosedOK(s: Session) {
    forall h :: 0 <= h < |s.handlers| && Registered(s.handlers[h]) && s.handlers[h].closes > 0 ==> s.closed
  }

  ghost predicate Rival(s: Session, h: nat, k: nat) {
    && h < |s.handlers| && k < |s.handlers| && h != k && Registered(s.handlers[h]) && Registered(s.handlers[k])
    && s.handlers[h].up.id == s.handlers[k].up.id
  }

  // Two handlers registered under one id at once: one of them can send nothing.
  ghost predicate RivalsOK(s: Session) {
    forall h: nat, k: nat :: Rival(s, h, k) ==> s.closed && (Late(s.handlers[h]) || Late(s.handlers[k]))
  }

  ghost predicate SameRequestID(s: Session, p: nat, q: nat) {
    && p < |s.sent| && q < |s.sent| && !s.sent[p].Control? && !s.sent[q].Control?
    && s.sent[p].id == s.sent[q].id
  }

  // Whoever is followed by another author of its id has gone.
  ghost predicate Overtaken(s: Session)
    requires Signed(s)
  {
    forall p: nat, q: nat :: p < q && SameRequestID(s, p, q) && s.authors[p] != s.authors[q] ==>
      SignedAt(s, p) && s.handlers[s.authors[p].value].pc.Gone?
  }

  // The frames of one id and one author are next to each other among those of the id.
  ghost predicate Contiguous(s: Session)
    requires |s.sent| == |s.authors|
  {
    forall p: nat, q: nat, r: nat :: p < q < r && SameRequestID(s, p, q) && SameRequestID(s, q, r) ==>
      s.authors[p] == s.authors[r] ==> s.authors[q] == s.authors[p]
  }

  ghost predicate TurnsOK(s: Session) {
    Signed(s) && ClosedOK(s) && RivalsOK(s) && Overtaken(s) && Contiguous(s)
  }

  // ------------------------------------------------------------------------- steps

  lemma MoveLate(x: Handler, m: Move, done: bool)
    requires Shape(x) && Late(x)
    ensures Late(MoveHandler(x, m, true, done))
  {
  }

  // A step that sends nothing, registers nobody and leaves ids of registered handlers.
  ghost predicate KeepsTurn(s: Session, x: Handler, y: Handler, closed: bool) {
    && (Registered(y) ==> Registered(x) && y.up.id == x.up.id)
    && (x.pc.Gone? ==> y.pc.Gone?)
    && (Registered(y) && y.closes > 0 ==> x.closes > 0 || closed)
    && (s.closed && Registered(x) && Late(x) ==> Late(y))
  }

  lemma QuietTurns(s: Session, t: Session)
    requires TurnsOK(s) && Signed(t) && t.sent == s.sent && t.authors == s.authors && (s.closed ==> t.closed)
    requires |t.handlers| >= |s.handlers|
    requires forall k :: 0 <= k < |s.handlers| ==> KeepsTurn(s, s.handlers[k], t.handlers[k], t.closed)
    requires forall k :: |s.handlers| <= k < |t.handlers| ==> !Registered(t.handlers[k])
    ensures TurnsOK(t)
  {
    forall h: nat, k: nat | Rival(t, h, k) ensures t.closed && (Late(t.handlers[h]) || Late(t.handlers[k])) {
      assert Rival(s, h, k);
    }
    QuietOvertaken(s, t);
    QuietContiguous(s, t);
  }

  lemma QuietOvertaken(s: Session, t: Session)
    requires Signed(s) && Signed(t) && Overtaken(s) && t.sent == s.sent && t.authors == s.authors
    requires |t.handlers| >= |s.handlers|
    requires forall k :: 0 <= k < |s.handlers| && s.handlers[k].pc.Gone? ==> t.handlers[k].pc.Gone?
    ensures Overtaken(t)
  {
    forall p: nat, q: nat | p < q && SameRequestID(t, p, q) && t.authors[p] != t.authors[q]
      ensures SignedAt(t, p) && t.handlers[t.authors[p].value].pc.Gone?
    {
      assert SameRequestID(s, p, q);
    }
  }

  lemma QuietContiguous(s: Session, t: Session)
    requires |s.sent| == |s.authors| && Contiguous(s) && t.sent == s.sent && t.authors == s.authors
    ensures Contiguous(t)
  {
    forall p: nat, q: nat, r: nat | p < q < r && SameRequestID(t, p, q) && SameRequestID(t, q, r) &&
      t.authors[p] == t.authors[r]
      ensures t.authors[q] == t.authors[p]
    {
      assert SameRequestID(s, p, q) && SameRequestID(s, q, r);
    }
  }

  lemma RegisterTurns(s: Session, h: nat)
    requires Always(s) && OpenOK(s) && FreeOK(s) && TurnsOK(s) && At(s, h, Registering) && Signed(DoRegister(s, h))
    ensures TurnsOK(DoRegister(s, h))
  {
    var t := DoRegister(s, h);
    assert Shape(s.handlers[h]) && Role(s, s.handlers[h]);
    assert Late(t.handlers[h]);
    forall j: nat, k: nat | Rival(t, j, k) ensures t.closed && (Late(t.handlers[j]) || Late(t.handlers[k])) {
      if j != h && k != h { assert Rival(s, j, k); }
    }
    QuietOvertaken(s, t);
    QuietContiguous(s, t);
  }

  lemma {:induction false} ByHas(sent: seq<Frame>, authors: seq<Option<nat>>, p: nat, h: nat)
    requires |sent| == |authors| && p < |sent| && authors[p] == Some(h)
    ensures By(sent, authors, h) != []
  {
    if p < |sent| - 1 {
      ByHas(sent[..|sent| - 1], authors[..|sent| - 1], p, h);
    }
  }

  // A handler about to send shares its id with no other handler that has sent and not gone.
  lemma OthersGone(s: Session, h: nat, p: nat)
    requires Always(s) && TurnsOK(s) && h < |s.handlers| && s.handlers[h].pc.Sending? && s.handlers[h].pc.gated
    requires p < |s.sent| && !s.sent[p].Control? && s.sent[p].id == s.handlers[h].up.id && s.authors[p] != Some(h)
    ensures SignedAt(s, p) && s.handlers[s.authors[p].value].pc.Gone?
  {
    assert SignedAt(s, p);
    var k := s.authors[p].value;
    if !s.handlers[k].pc.Gone? {
      assert Rival(s, h, k);
      assert Shape(s.handlers[k]);
      ByHas(s.sent, s.authors, p, k);
    }
  }

  // Handler h, now y, has sent f.
  lemma SentOvertaken(s: Session, t: Session, h: nat, y: Handler, f: Frame)
    requires Always(s) && TurnsOK(s) && h < |s.handlers| && s.handlers[h].pc.Sending? && s.handlers[h].pc.gated
    requires Signed(t) && t.handlers == s.handlers[h := y]
    requires t.sent == s.sent + [f] && t.authors == s.authors + [Some(h)] && Carries(f, s.handlers[h].up.id)
    ensures Overtaken(t) && Contiguous(t)
  {
    var n := |s.sent|;
    forall p: nat, q: nat | p < q && SameRequestID(t, p, q) && t.authors[p] != t.authors[q]
      ensures SignedAt(t, p) && t.handlers[t.authors[p].value].pc.Gone?
    {
      assert SignedAt(t, p);
      if q < n { assert SameRequestID(s, p, q); } else { OthersGone(s, h, p); }
    }
    forall p: nat, q: nat, r: nat | p < q < r && SameRequestID(t, p, q) && SameRequestID(t, q, r) &&
      t.authors[p] == t.authors[r]
      ensures t.authors[q] == t.authors[p]
    {
      assert SameRequestID(s, p, q);
      if r < n { assert SameRequestID(s, q, r); }
    }
  }

  lemma EnqueueTurns(s: Session, h: nat)
    requires Always(s) && TurnsOK(s) && h < |s.handlers| && s.handlers[h].pc.Sending? && s.handlers[h].pc.gated
    requires Signed(DoEnqueue(s, h))
    ensures TurnsOK(DoEnqueue(s, h))
  {
    var x, t := s.handlers[h], DoEnqueue(s, h);
    AcceptedFrames(x);
    AcceptedSameRole(x);
    SentOvertaken(s, t, h, Accepted(x), x.pc.f);
    forall j: nat, k: nat | Rival(t, j, k) ensures t.closed && (Late(t.handlers[j]) || Late(t.handlers[k])) {
      assert Rival(s, j, k);
    }
  }

  lemma MoverKeepsTurn(s: Session, h: nat, m: Move)
    requires Shapes(s) && h < |s.handlers|
    ensures KeepsTurn(s, s.handlers[h], MoveHandler(s.handlers[h], m, s.closed, s.doneCloses > 0), s.closed)
  {
    var x := s.handlers[h];
    MoveSameRole(x, m, s.closed, s.doneCloses > 0);
    if s.closed && Late(x) { MoveLate(x, m, s.doneCloses > 0); }
  }

  lemma ActTurns(s: Session, h: nat, m: Move)
    requires Always(s) && TurnsOK(s) && h < |s.handlers| && Signed(Do(s, Act(h, m)))
    ensures TurnsOK(Do(s, Act(h, m)))
  {
    MoverKeepsTurn(s, h, m);
    MovedTurns(s, h, MoveHandler(s.handlers[h], m, s.closed, s.doneCloses > 0));
  }

  lemma MovedTurns(s: Session, h: nat, y: Handler)
    requires TurnsOK(s) && h < |s.handlers| && KeepsTurn(s, s.handlers[h], y, s.closed) && Signed(Put(s, h, y))
    ensures TurnsOK(Put(s, h, y))
  {
    QuietTurns(s, Put(s, h, y));
  }

  lemma LeaverKeepsTurn(s: Session, h: nat, k: nat)
    requires PendingOK(s) && OpenOK(s) && ClosedOK(s) && At(s, h, Leaving) && k < |s.handlers|
    ensures var t := DoUnregister(s, h);
            |t.handlers| == |s.handlers| && KeepsTurn(s, s.handlers[k], t.handlers[k], t.closed)
  {
  }

  lemma LeaverQuiet(s: Session, h: nat)
    requires At(s, h, Leaving)
    ensures var t := DoUnregister(s, h);
            |t.handlers| == |s.handlers| && t.closed == s.closed && t.sent == s.sent && t.authors == s.authors
  {
  }

  lemma LeaverKeepsTurns(s: Session, t: Session, h: nat)
    requires PendingOK(s) && OpenOK(s) && ClosedOK(s) && At(s, h, Leaving) && t == DoUnregister(s, h)
    ensures |t.handlers| == |s.handlers| && t.closed == s.closed && t.sent == s.sent && t.authors == s.authors
    ensures forall k :: 0 <= k < |s.handlers| ==> KeepsTurn(s, s.handlers[k], t.handlers[k], t.closed)
  {
    LeaverQuiet(s, h);
    forall k | 0 <= k < |s.handlers| ensures KeepsTurn(s, s.handlers[k], t.handlers[k], t.closed) {
      LeaverKeepsTurn(s, h, k);
    }
  }

  lemma UnregisterTurns(s: Session, t: Session, h: nat)
    requires Always(s) && OpenOK(s) && TurnsOK(s) && At(s, h, Leaving) && t == DoUnregister(s, h) && Signed(t)
    ensures TurnsOK(t)
  {
    LeaverKeepsTurns(s, t, h);
    QuietTurns(s, t);
  }

  lemma DrainKeepsTurn(s: Session, c: nat, k: nat)
    requires k < |s.handlers| && ServerSafety.ClosersOK(s) && CloserAt(s, c, Signalled)
    ensures |Do(s, Drain(c)).handlers| == |s.handlers| && KeepsTurn(s, s.handlers[k], Do(s, Drain(c)).handlers[k],
            Do(s, Drain(c)).closed)
  {
  }

  lemma DrainTurns(s: Session, c: nat)
    requires Always(s) && TurnsOK(s) && CloserAt(s, c, Signalled) && Signed(Do(s, Drain(c)))
    ensures TurnsOK(Do(s, Drain(c)))
  {
    forall k | 0 <= k < |s.handlers| ensures KeepsTurn(s, s.handlers[k], Do(s, Drain(c)).handlers[k], Do(s,
      Drain(c)).closed) {
      DrainKeepsTurn(s, c, k);
    }
    QuietTurns(s, Do(s, Drain(c)));
  }

  lemma BookKeepsTurn(s: Session, st: Step, k: nat)
    requires k < |s.handlers| && (st.Arrive? || st.AddID? || st.CheckID? || st.Deliver?)
    ensures |s.handlers| <= |Do(s, st).handlers| && KeepsTurn(s, s.handlers[k], Do(s, st).handlers[k], Do(s, st).closed)
  {
    if st.Deliver? { DeliverKeepsTurn(s, k); }
  }

  lemma DeliverKeepsTurn(s: Session, k: nat)
    requires k < |s.handlers|
    ensures |s.handlers| <= |Do(s, Deliver).handlers|
    ensures KeepsTurn(s, s.handlers[k], Do(s, Deliver).handlers[k], Do(s, Deliver).closed)
  {
  }

  lemma BookNewcomer(s: Session, st: Step)
    requires st.Arrive? || st.AddID? || st.CheckID? || st.Deliver?
    ensures var t := Do(s, st);
            |s.handlers| <= |t.handlers| && (forall k :: |s.handlers| <= k < |t.handlers| ==>
              !Registered(t.handlers[k]))
            && t.closed == s.closed && t.sent == s.sent && t.authors == s.authors
  {
  }

  lemma BookTurns(s: Session, st: Step)
    requires TurnsOK(s) && Signed(Do(s, st)) && (st.Arrive? || st.AddID? || st.CheckID? || st.Deliver?)
    ensures TurnsOK(Do(s, st))
  {
    var t := Do(s, st);
    BookNewcomer(s, st);
    forall k | 0 <= k < |s.handlers| ensures KeepsTurn(s, s.handlers[k], t.handlers[k], t.closed) {
      BookKeepsTurn(s, st, k);
    }
    QuietTurns(s, t);
  }

  lemma OtherTurns(s: Session, st: Step)
    requires TurnsOK(s) && Signed(Do(s, st))
    requires st.Write? || st.ReadFrame? || st.DropBlocked? || st.StopReading? || st.CallClose? || st.Swap? ||
             st.Signal? || st.Detach?
    ensures TurnsOK(Do(s, st))
  {
    assert Do(s, st).handlers == s.handlers;
    QuietTurns(s, Do(s, st));
  }

  lemma ControlQueue(s: Session, t: Session)
    requires TurnsOK(s) && Signed(t) && t.handlers == s.handlers
    requires t.sent == s.sent + [Control] && t.authors == s.authors + [None]
    ensures Overtaken(t) && Contiguous(t)
  {
    forall p: nat, q: nat | p < q && SameRequestID(t, p, q) && t.authors[p] != t.authors[q]
      ensures SignedAt(t, p) && t.handlers[t.authors[p].value].pc.Gone?
    {
      assert SameRequestID(s, p, q);
    }
    forall p: nat, q: nat, r: nat | p < q < r && SameRequestID(t, p, q) && SameRequestID(t, q, r) &&
      t.authors[p] == t.authors[r]
      ensures t.authors[q] == t.authors[p]
    {
      assert SameRequestID(s, p, q) && SameRequestID(s, q, r);
    }
  }

  lemma ControlTurns(s: Session)
    requires TurnsOK(s) && Signed(Do(s, SendControl))
    ensures TurnsOK(Do(s, SendControl))
  {
    var t := Do(s, SendControl);
    if t != s {
      ControlQueue(s, t);
      forall j: nat, k: nat | Rival(t, j, k) ensures t.closed && (Late(t.handlers[j]) || Late(t.handlers[k])) {
        assert Rival(s, j, k);
      }
    }
  }

  lemma StepTurns(s: Session, st: Step)
    requires Always(s) && OpenOK(s) && FreeOK(s) && TurnsOK(s)
    ensures TurnsOK(Do(s, st))
  {
    StepSigned(s, st);
    match st
    case Register(h) => if At(s, h, Registering) { RegisterTurns(s, h); }
    case Enqueue(h) =>
      if h < |s.handlers| && s.handlers[h].pc.Sending? && s.handlers[h].pc.gated && |s.sendQ| < SEND_QUEUE_CAP {
        EnqueueTurns(s, h);
      }
    case Act(h, m) => if h < |s.handlers| { ActTurns(s, h, m); }
    case Unregister(h) => if At(s, h, Leaving) { UnregisterTurns(s, DoUnregister(s, h), h); }
    case Drain(c) => if CloserAt(s, c, Signalled) { DrainTurns(s, c); }
    case SendControl => ControlTurns(s);
    case Arrive(_) => BookTurns(s, st);
    case AddID(_) => BookTurns(s, st);
    case CheckID(_) => BookTurns(s, st);
    case Deliver => BookTurns(s, st);
    case _ => OtherTurns(s, st);
  }

  /** Uploads of handlers that hold the same id in turn never mix. */
  lemma {:induction false} TurnsReachable(steps: seq<Step>)
    requires PacedRun(NEW_SESSION, steps)
    ensures TurnsOK(Exec(NEW_SESSION, steps))
  {
    if steps != [] {
      var before := steps[..|steps| - 1];
      TurnsReachable(before);
      AlwaysReachable(before);
      OpenReachable(before);
      StepTurns(Exec(NEW_SESSION, before), steps[|steps| - 1]);
    }
  }
}
