/** What a server session has enqueued: every frame of a request carries the id of
    the handler that enqueued it, and each handler's frames are its upload.  While
    fewer than 2^32 ids have been handed out, an id's frames are those of the one
    handler that holds it. */
module SentUploads {
  import opened Proto
  import opened Upload
  import opened Server
  import opened HandlerShape
  import opened ServerSafety

  ghost predicate Taken(s: Session, i: ReqID) {
    exists h :: 0 <= h < |s.handlers| && HasId(s.handlers[h]) && s.handlers[h].up.id == i
  }

  ghost predicate SentOK(s: Session) {
    s.adds < ID_SPACE ==>
      && (forall h :: 0 <= h < |s.handlers| && HasId(s.handlers[h]) ==>
            Proj(s.sent, s.handlers[h].up.id) == s.handlers[h].up.Frames())
      && (forall i: ReqID :: !Taken(s, i) ==> Proj(s.sent, i) == [])
  }

  lemma IdsDistinct(s: Session, h: nat, k: nat)
    requires Books(s) && s.adds < ID_SPACE && h < |s.handlers| && k < |s.handlers| && h != k
    requires HasId(s.handlers[h]) && HasId(s.handlers[k])
    ensures s.handlers[h].up.id != s.handlers[k].up.id
  {
    assert Role(s, s.handlers[h]) && Role(s, s.handlers[k]);
    assert s.handlers[h].up.id == s.handlers[h].tick && s.handlers[k].up.id == s.handlers[k].tick;
    if h < k { } else { }
  }

  // -------------------------------------------------------------- one handler's frames

  lemma AcceptedFrames(x: Handler)
    requires Shape(x) && x.pc.Sending?
    ensures Accepted(x).up.Frames() == x.up.Frames() + [x.pc.f]
    ensures Carries(x.pc.f, x.up.id) && Accepted(x).up.id == x.up.id
  {
    match x.pc.next
    case Start =>
      assert ChunkFrames(x.up.id, []) == [];
    case Chunk(end) =>
      ChunkFramesSnoc(x.up.id, x.up.pieces, x.pc.f.data.raw);
      var piece := x.pc.f.data.raw;
      assert Accepted(x).up == x.up.(pieces := x.up.pieces + [piece]);
    case End =>
    case Verdict(v) =>
  }

  lemma MoveKeepsUpload(x: Handler, m: Move, closed: bool, done: bool)
    ensures MoveHandler(x, m, closed, done).up == x.up
  {
  }

  // ---------------------------------------------------------------------- authors

  /** The frames handler h enqueued, in order. */
  ghost function By(sent: seq<Frame>, authors: seq<Option<nat>>, h: nat): seq<Frame>
    requires |sent| == |authors|
  {
    if sent == [] then []
    else
      var n := |sent| - 1;
      By(sent[..n], authors[..n], h) + if authors[n] == Some(h) then [sent[n]] else []
  }

  lemma BySnoc(sent: seq<Frame>, authors: seq<Option<nat>>, f: Frame, a: Option<nat>, h: nat)
    requires |sent| == |authors|
    ensures By(sent + [f], authors + [a], h) == By(sent, authors, h) + if a == Some(h) then [f] else []
  {
    assert (sent + [f])[..|sent|] == sent && (authors + [a])[..|authors|] == authors;
  }

  lemma {:induction false} ByNobody(sent: seq<Frame>, authors: seq<Option<nat>>, h: nat)
    requires |sent| == |authors| && forall p :: 0 <= p < |authors| ==> authors[p] != Some(h)
    ensures By(sent, authors, h) == []
  {
    if sent != [] {
      ByNobody(sent[..|sent| - 1], authors[..|sent| - 1], h);
    }
  }

  ghost predicate EverRegistered(x: Handler) {
    Registered(x) || x.pc.Gone?
  }

  // Frame p of the queue has the author it should have.
  ghost predicate SignedAt(s: Session, p: nat)
    requires p < |s.sent| && p < |s.authors|
  {
    if s.sent[p].Control? then s.authors[p].None?
    else
      && s.authors[p].Some? && s.authors[p].value < |s.handlers|
      && EverRegistered(s.handlers[s.authors[p].value])
      && s.sent[p].id == s.handlers[s.authors[p].value].up.id
  }

  /** Every frame is signed by its author, with the author's id, and each
      handler's frames are its upload. */
  ghost predicate Signed(s: Session) {
    && |s.sent| == |s.authors|
    && (forall p :: 0 <= p < |s.sent| ==> SignedAt(s, p))
    && (forall h :: 0 <= h < |s.handlers| ==> By(s.sent, s.authors, h) == s.handlers[h].up.Frames())
  }

  // ------------------------------------------------------------------------- steps

  lemma BlankFrames(x: Handler, id: ReqID)
    requires Shape(x) && x.pc.Fresh?
    ensures x.up.Frames() == [] && x.up.(id := id).Frames() == []
  {
  }

  // A step that sends nothing: uploads stay, but for the id of a handler that has none.
  ghost predicate KeepsUpload(x: Handler, y: Handler) {
    && (y.up == x.up || (x.pc.Fresh? && y.up == x.up.(id := y.up.id)))
    && (EverRegistered(x) ==> EverRegistered(y))
  }

  lemma QuietSigned(s: Session, t: Session)
    requires Shapes(s) && Signed(s) && t.sent == s.sent && t.authors == s.authors && |t.handlers| == |s.handlers|
    requires forall k :: 0 <= k < |s.handlers| ==> KeepsUpload(s.handlers[k], t.handlers[k])
    ensures Signed(t)
  {
    forall p | 0 <= p < |t.sent| ensures SignedAt(t, p) {
      assert SignedAt(s, p);
    }
    forall h | 0 <= h < |t.handlers| ensures By(t.sent, t.authors, h) == t.handlers[h].up.Frames() {
      assert KeepsUpload(s.handlers[h], t.handlers[h]);
      if s.handlers[h].pc.Fresh? {
        BlankFrames(s.handlers[h], t.handlers[h].up.id);
      }
    }
  }

  lemma ArriveSigned(s: Session, c: Caller)
    requires Signed(s)
    ensures Signed(Do(s, Arrive(c)))
  {
    var t := Do(s, Arrive(c));
    forall p | 0 <= p < |t.sent| ensures SignedAt(t, p) && t.authors[p] != Some(|s.handlers|) {
      assert SignedAt(s, p);
    }
    ByNobody(s.sent, s.authors, |s.handlers|);
  }

  lemma ControlSigned(s: Session)
    requires Signed(s)
    ensures Signed(Do(s, SendControl))
  {
    var t := Do(s, SendControl);
    if t != s {
      forall p | 0 <= p < |t.sent| ensures SignedAt(t, p) {
        if p < |s.sent| { assert SignedAt(s, p); }
      }
      forall h | 0 <= h < |t.handlers| ensures By(t.sent, t.authors, h) == t.handlers[h].up.Frames() {
        BySnoc(s.sent, s.authors, Control, None, h);
      }
    }
  }

  // Handler h, now y, has sent f.
  lemma SentSigned(s: Session, t: Session, h: nat, y: Handler, f: Frame)
    requires Signed(s) && h < |s.handlers| && t.handlers == s.handlers[h := y]
    requires t.sent == s.sent + [f] && t.authors == s.authors + [Some(h)]
    requires EverRegistered(y) && y.up.id == s.handlers[h].up.id && Carries(f, y.up.id)
    requires y.up.Frames() == s.handlers[h].up.Frames() + [f]
    ensures Signed(t)
  {
    forall p | 0 <= p < |t.sent| ensures SignedAt(t, p) {
      if p < |s.sent| { assert SignedAt(s, p); }
    }
    forall k | 0 <= k < |t.handlers| ensures By(t.sent, t.authors, k) == t.handlers[k].up.Frames() {
      BySnoc(s.sent, s.authors, f, Some(h), k);
    }
  }

  lemma AcceptedRegistered(x: Handler)
    requires Shape(x) && x.pc.Sending?
    ensures Registered(Accepted(x))
  {
  }

  lemma EnqueueSigned(s: Session, h: nat)
    requires Always(s) && Signed(s) && h < |s.handlers| && s.handlers[h].pc.Sending?
    ensures Signed(DoEnqueue(s, h))
  {
    AcceptedFrames(s.handlers[h]);
    AcceptedRegistered(s.handlers[h]);
    SentSigned(s, DoEnqueue(s, h), h, Accepted(s.handlers[h]), s.handlers[h].pc.f);
  }

  lemma ActKeepsUploads(s: Session, h: nat, m: Move)
    requires Always(s) && h < |s.handlers|
    ensures var t := Do(s, Act(h, m));
            |t.handlers| == |s.handlers| &&
            forall k :: 0 <= k < |s.handlers| ==> KeepsUpload(s.handlers[k], t.handlers[k])
  {
    MoveKeepsUpload(s.handlers[h], m, s.closed, s.doneCloses > 0);
    MoveSameRole(s.handlers[h], m, s.closed, s.doneCloses > 0);
  }

  lemma BookKeepsUploads(s: Session, st: Step)
    requires st.AddID? || st.CheckID? || st.Register? || st.Unregister?
    ensures var t := Do(s, st);
            |t.handlers| == |s.handlers| &&
            forall k :: 0 <= k < |s.handlers| ==> KeepsUpload(s.handlers[k], t.handlers[k])
  {
  }

  lemma QuietKeepsUploads(s: Session, st: Step)
    requires !st.Arrive? && !st.AddID? && !st.CheckID? && !st.Register? && !st.Unregister? && !st.Act? && !st.Enqueue?
    ensures var t := Do(s, st);
            |t.handlers| == |s.handlers| &&
            forall k :: 0 <= k < |s.handlers| ==> KeepsUpload(s.handlers[k], t.handlers[k])
  {
  }

  lemma QuietSends(s: Session, st: Step)
    requires !st.Enqueue? && !st.SendControl?
    ensures Do(s, st).sent == s.sent && Do(s, st).authors == s.authors
  {
  }

  lemma StepSigned(s: Session, st: Step)
    requires Always(s) && Signed(s)
    ensures Signed(Do(s, st))
  {
    match st
    case Arrive(c) => ArriveSigned(s, c);
    case SendControl => ControlSigned(s);
    case Enqueue(h) => if h < |s.handlers| && s.handlers[h].pc.Sending? { EnqueueSigned(s, h); }
    case _ => StepKeepsUploads(s, st);
  }

  lemma StepKeepsUploads(s: Session, st: Step)
    requires Always(s) && Signed(s) && !st.Arrive? && !st.Enqueue? && !st.SendControl?
    ensures Signed(Do(s, st))
  {
    QuietSends(s, st);
    if st.Act? {
      if st.h < |s.handlers| {
        ActKeepsUploads(s, st.h, st.m);
        QuietSigned(s, Do(s, st));
      }
    } else if st.AddID? || st.CheckID? || st.Register? || st.Unregister? {
      BookKeepsUploads(s, st);
      QuietSigned(s, Do(s, st));
    } else {
      QuietKeepsUploads(s, st);
      QuietSigned(s, Do(s, st));
    }
  }

  lemma {:induction false} SignedReachable(steps: seq<Step>)
    ensures Signed(Exec(NEW_SESSION, steps))
  {
    if steps != [] {
      var before := steps[..|steps| - 1];
      SignedReachable(before);
      AlwaysReachable(before);
      StepSigned(Exec(NEW_SESSION, before), steps[|steps| - 1]);
    }
  }

  // ---------------------------------------------------------------- one holder per id

  lemma {:induction false} ProjBy(sent: seq<Frame>, authors: seq<Option<nat>>, i: ReqID, h: nat)
    requires |sent| == |authors|
    requires forall p :: 0 <= p < |sent| ==> (Carries(sent[p], i) <==> authors[p] == Some(h))
    ensures Proj(sent, i) == By(sent, authors, h)
  {
    if sent != [] {
      ProjBy(sent[..|sent| - 1], authors[..|sent| - 1], i, h);
    }
  }

  lemma {:induction false} ProjNobody(fs: seq<Frame>, i: ReqID)
    requires forall p :: 0 <= p < |fs| ==> !Carries(fs[p], i)
    ensures Proj(fs, i) == []
  {
    if fs != [] {
      ProjNobody(fs[..|fs| - 1], i);
    }
  }

  lemma HolderSent(s: Session, h: nat)
    requires Always(s) && Signed(s) && s.adds < ID_SPACE && h < |s.handlers| && HasId(s.handlers[h])
    ensures Proj(s.sent, s.handlers[h].up.id) == s.handlers[h].up.Frames()
  {
    var i := s.handlers[h].up.id;
    forall p | 0 <= p < |s.sent| ensures Carries(s.sent[p], i) <==> s.authors[p] == Some(h) {
      assert SignedAt(s, p);
      if !s.sent[p].Control? && s.authors[p].value != h {
        IdsDistinct(s, h, s.authors[p].value);
      }
    }
    ProjBy(s.sent, s.authors, i, h);
  }

  lemma NobodySent(s: Session, i: ReqID)
    requires Signed(s) && !Taken(s, i)
    ensures Proj(s.sent, i) == []
  {
    forall p | 0 <= p < |s.sent| ensures !Carries(s.sent[p], i) {
      assert SignedAt(s, p);
    }
    ProjNobody(s.sent, i);
  }

  lemma SentReachable(steps: seq<Step>)
    ensures SentOK(Exec(NEW_SESSION, steps))
  {
    AlwaysReachable(steps);
    SignedReachable(steps);
    var s := Exec(NEW_SESSION, steps);
    if s.adds < ID_SPACE {
      forall h | 0 <= h < |s.handlers| && HasId(s.handlers[h])
        ensures Proj(s.sent, s.handlers[h].up.id) == s.handlers[h].up.Frames()
      {
        HolderSent(s, h);
      }
      forall i: ReqID | !Taken(s, i) ensures Proj(s.sent, i) == [] {
        NobodySent(s, i);
      }
    }
  }
}
