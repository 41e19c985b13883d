/** Where the client's forwards come from, however often the session's ids wrap
    and whatever an earlier connection left in the client's table: each forward of
    a connection carries the whole request of the one handler whose frame started
    it, and no handler's frames start two. */
module Forwards {
  import opened Proto
  import opened Upload
  import opened HandlerShape
  import opened ServerSafety
  import opened Mailboxes
  import opened SentUploads
  import opened Turns
  import opened System
  import S = Server
  import C = Client

  /** Fewer than 2^32 ids are handed out between choosing an id and registering it. */
  ghost predicate PacedMoves(c0: C.Client, moves: seq<Move>) {
    PacedRun(S.NEW_SESSION, ServerSteps(Init(c0), moves))
  }

  lemma PacedFacts(c0: C.Client, moves: seq<Move>)
    requires PacedMoves(c0, moves)
    ensures var srv := Exec(Init(c0), moves).srv; Always(srv) && TurnsOK(srv) && HeardOK(srv)
  {
    ServerInside(Init(c0), moves);
    AlwaysReachable(ServerSteps(Init(c0), moves));
    TurnsReachable(ServerSteps(Init(c0), moves));
    HeardReachable(ServerSteps(Init(c0), moves));
  }

  ghost function WholeRequest(s: System, h: nat): Dispatch
    requires h < |s.srv.handlers|
  {
    var x := s.srv.handlers[h];
    Dispatch(x.up.id, S.HeadOf(x.caller), S.BodyOf(x.caller))
  }

  // --------------------------------------------------- the frames of one author

  // Between two frames of author a, every frame of its id is a's.
  lemma InTurn(s: S.Session, i: ReqID, a: nat, q: nat, p: nat, m: nat)
    requires TurnsOK(s) && q <= p < m <= |s.sent|
    requires s.authors[q] == Some(a) && s.authors[m - 1] == Some(a) && Carries(s.sent[q], i) &&
             Carries(s.sent[m - 1], i)
    ensures Carries(s.sent[p], i) <==> s.authors[p] == Some(a)
  {
    assert SignedAt(s, p) && SignedAt(s, q);
    if Carries(s.sent[p], i) && q < p < m - 1 {
      assert SameRequestID(s, q, p) && SameRequestID(s, p, m - 1);
    }
  }

  lemma TailStep(sent: seq<Frame>, authors: seq<Option<nat>>, i: ReqID, a: nat, p: nat, others: seq<Frame>)
    requires |sent| == |authors| && p < |sent| && (Carries(sent[p], i) <==> authors[p] == Some(a))
    requires Proj(sent[..p], i) == others + By(sent[..p], authors[..p], a)
    ensures Proj(sent[..p + 1], i) == others + By(sent[..p + 1], authors[..p + 1], a)
  {
    assert sent[..p + 1] == sent[..p] + [sent[p]] && authors[..p + 1] == authors[..p] + [authors[p]];
    BySnoc(sent[..p], authors[..p], sent[p], authors[p], a);
    ProjSnoc(sent[..p], sent[p], i);
  }

  // The frames of id i are others' up to position q and handler a's from there to n.
  lemma {:induction false} AuthorTail(s: S.Session, i: ReqID, a: nat, q: nat, n: nat, m: nat)
    requires TurnsOK(s) && q <= n <= m <= |s.sent| && q < m
    requires s.authors[q] == Some(a) && s.authors[m - 1] == Some(a) && Carries(s.sent[q], i) &&
             Carries(s.sent[m - 1], i)
    requires forall p :: 0 <= p < q ==> s.authors[p] != Some(a)
    ensures Proj(s.sent[..n], i) == Proj(s.sent[..q], i) + By(s.sent[..n], s.authors[..n], a)
  {
    if n == q {
      ByNobody(s.sent[..q], s.authors[..q], a);
    } else {
      var p := n - 1;
      AuthorTail(s, i, a, q, p, m);
      InTurn(s, i, a, q, p, m);
      TailStep(s.sent, s.authors, i, a, p, Proj(s.sent[..q], i));
    }
  }

  lemma {:induction false} FirstBy(authors: seq<Option<nat>>, a: nat, p: nat) returns (q: nat)
    requires p < |authors| && authors[p] == Some(a)
    ensures q <= p && authors[q] == Some(a) && forall j :: 0 <= j < q ==> authors[j] != Some(a)
  {
    q := p;
    if exists j :: 0 <= j < p && authors[j] == Some(a) {
      var j :| 0 <= j < p && authors[j] == Some(a);
      q := FirstBy(authors, a, j);
    }
  }

  lemma {:induction false} ByPrefix(sent: seq<Frame>, authors: seq<Option<nat>>, h: nat, n: nat)
    requires |sent| == |authors| && n <= |sent|
    ensures By(sent[..n], authors[..n], h) <= By(sent, authors, h)
  {
    if n < |sent| {
      ByPrefix(sent[..|sent| - 1], authors[..|sent| - 1], h, n);
      assert sent[..|sent| - 1][..n] == sent[..n] && authors[..|sent| - 1][..n] == authors[..n];
    } else {
      assert sent[..n] == sent && authors[..n] == authors;
    }
  }

  lemma {:induction false} LocalConcat(slot: Option<Entry>, a: seq<Frame>, b: seq<Frame>)
    ensures var first := LocalRun(slot, a);
            LocalRun(slot, a + b) == Local(LocalRun(first.slot, b).slot, first.out + LocalRun(first.slot, b).out)
  {
    if b == [] {
      assert a + b == a && LocalRun(slot, a).out + [] == LocalRun(slot, a).out;
    } else {
      var n := |b| - 1;
      LocalConcat(slot, a, b[..n]);
      assert a + b == (a + b[..n]) + [b[n]] && b == b[..n] + [b[n]];
      LocalSnoc(slot, a + b[..n], b[n]);
      LocalSnoc(LocalRun(slot, a).slot, b[..n], b[n]);
    }
  }

  // ------------------------------------------------------------- one more forward

  // The frame at p makes a table grow: what it dispatches.
  lemma GrowsBy(t: Table, f: Frame)
    requires |TableStep(t, f).dispatched| == |t.dispatched| + 1
    ensures !f.Control? && |StepSlot(SlotOf(t, f.id), f).out| == 1
    ensures TableStep(t, f).dispatched == t.dispatched + StepSlot(SlotOf(t, f.id), f).out
  {
  }

  lemma {:induction false} TableGrows(t: Table, fs: seq<Frame>, n: nat)
    requires n <= |fs|
    ensures TableRun(t, fs[..n]).dispatched <= TableRun(t, fs).dispatched
  {
    if n < |fs| {
      TableGrows(t, fs[..|fs| - 1], n);
      assert fs[..|fs| - 1][..n] == fs[..n];
    } else {
      assert fs[..n] == fs;
    }
  }

  // Forward k was started by a frame of handler h.
  ghost predicate From(s: System, c0: C.Client, k: nat, h: nat) {
    && |c0.forwards| <= k < |c0.forwards| + |s.points|
    && s.points[k - |c0.forwards|] < |s.srv.authors|
    && s.srv.authors[s.points[k - |c0.forwards|]] == Some(h)
  }

  ghost predicate Traced(s: System, c0: C.Client) {
    Always(s.srv) && TurnsOK(s.srv) && WiresOK(s) && TableOK(s, c0) && PointsOK(s, c0)
  }

  // The slot of id i before handler a's first frame, and a's frames up to p.
  ghost predicate Split(s: System, c0: C.Client, a: nat, i: ReqID, q: nat, n: nat, slot: Option<Entry>) {
    && q <= n <= |s.srv.sent| && |s.srv.sent| == |s.srv.authors|
    && Proj(s.srv.sent[..n], i) == Proj(s.srv.sent[..q], i) + By(s.srv.sent[..n], s.srv.authors[..n], a)
    && slot == LocalRun(SlotOf(C.TableOf(c0), i), Proj(s.srv.sent[..q], i)).slot
  }

  // What the client's table holds for i after n frames, n inside a's turn.
  lemma SlotInTurn(s: System, c0: C.Client, a: nat, i: ReqID, q: nat, n: nat, slot: Option<Entry>)
    requires Split(s, c0, a, i, q, n, slot)
    ensures SlotOf(TableRun(C.TableOf(c0), s.srv.sent[..n]), i)
         == LocalRun(slot, By(s.srv.sent[..n], s.srv.authors[..n], a)).slot
  {
    Locality(C.TableOf(c0), s.srv.sent[..n], i);
    LocalConcat(SlotOf(C.TableOf(c0), i), Proj(s.srv.sent[..q], i), By(s.srv.sent[..n], s.srv.authors[..n], a));
  }

  // What handler x's first n frames make the client forward.
  lemma ForwardedIsWhole(x: S.Handler, n: nat)
    requires Shape(x) && x.up.Forwarded(n) != []
    ensures Whole(x.up) && x.up.Forwarded(n) == [Dispatch(x.up.id, S.HeadOf(x.caller), S.BodyOf(x.caller))]
  {
  }

  // The frame at p is author a's latest: a's frames before it, and with it.
  lemma AuthorFrames(s: S.Session, p: nat, a: nat)
    requires Signed(s) && p < |s.sent| && s.authors[p] == Some(a) && a < |s.handlers|
    ensures var before := By(s.sent[..p], s.authors[..p], a);
            before + [s.sent[p]] <= s.handlers[a].up.Frames()
            && By(s.sent[..p + 1], s.authors[..p + 1], a) == before + [s.sent[p]]
  {
    assert s.sent[..p + 1] == s.sent[..p] + [s.sent[p]] && s.authors[..p + 1] == s.authors[..p] + [s.authors[p]];
    BySnoc(s.sent[..p], s.authors[..p], s.sent[p], s.authors[p], a);
    ByPrefix(s.sent, s.authors, a, p + 1);
  }

  // The slot author a found, from which its frames lead to what the table holds at p.
  lemma TurnSlot(s: System, c0: C.Client, p: nat, a: nat) returns (slot: Option<Entry>)
    requires TurnsOK(s.srv) && p < |s.srv.sent| && s.srv.authors[p] == Some(a)
    ensures SignedAt(s.srv, p)
    ensures SlotOf(TableRun(C.TableOf(c0), s.srv.sent[..p]), s.srv.sent[p].id)
         == LocalRun(slot, By(s.srv.sent[..p], s.srv.authors[..p], a)).slot
  {
    assert SignedAt(s.srv, p);
    var i := s.srv.sent[p].id;
    var q := FirstBy(s.srv.authors, a, p);
    assert SignedAt(s.srv, q);
    AuthorTail(s.srv, i, a, q, p, p + 1);
    slot := LocalRun(SlotOf(C.TableOf(c0), i), Proj(s.srv.sent[..q], i)).slot;
    SlotInTurn(s, c0, a, i, q, p, slot);
  }

  // One more frame of an upload dispatches what the upload then makes forwarded.
  lemma UploadStep(slot: Option<Entry>, u: Sent, before: seq<Frame>, f: Frame)
    requires u.Valid() && before + [f] <= u.Frames()
    ensures u.Forwarded(|before| + 1) == u.Forwarded(|before|) + StepSlot(LocalRun(slot, before).slot, f).out
  {
    UploadForwarded(slot, u, before);
    UploadForwarded(slot, u, before + [f]);
    LocalSnoc(slot, before, f);
  }

  // What the frame at p dispatches, told by its author's frames.
  lemma DispatchInTurn(s: System, c0: C.Client, p: nat, a: nat)
    requires Always(s.srv) && TurnsOK(s.srv) && p < |s.srv.sent| && s.srv.authors[p] == Some(a) && a < |s.srv.handlers|
    ensures var f, before := s.srv.sent[p], |By(s.srv.sent[..p], s.srv.authors[..p], a)|;
            var u := s.srv.handlers[a].up;
            !f.Control? && u.Forwarded(before + 1) ==
            u.Forwarded(before) + StepSlot(SlotOf(TableRun(C.TableOf(c0), s.srv.sent[..p]), f.id), f).out
  {
    var slot := TurnSlot(s, c0, p, a);
    assert Shape(s.srv.handlers[a]);
    AuthorFrames(s.srv, p, a);
    UploadStep(slot, s.srv.handlers[a].up, By(s.srv.sent[..p], s.srv.authors[..p], a), s.srv.sent[p]);
  }

  // The dispatch of forward n, started at p.
  lemma StartedDispatch(s: System, c0: C.Client, p: nat, n: nat)
    requires WiresOK(s) && TableOK(s, c0) && StartsAt(s, c0, p, n) && n < |s.cli.forwards|
    ensures p < |s.srv.sent| && !s.srv.sent[p].Control?
    ensures StepSlot(SlotOf(TableRun(C.TableOf(c0), s.srv.sent[..p]), s.srv.sent[p].id), s.srv.sent[p]).out
         == [C.DispatchOf(s.cli.forwards[n])]
  {
    var t0, f := C.TableOf(c0), s.received[p];
    assert s.received <= s.srv.sent;
    assert s.srv.sent[..p] == s.received[..p] && s.received[..p + 1][..p] == s.received[..p] &&
      s.received[..p + 1][p] == f;
    GrowsBy(TableRun(t0, s.received[..p]), f);
    TableGrows(t0, s.received, p + 1);
    assert C.Dispatched(s.cli)[n] == TableRun(t0, s.received[..p + 1]).dispatched[n];
  }

  // How many of the first p frames are handler a's.
  ghost function CountBy(s: S.Session, p: nat, a: nat): nat
    requires p <= |s.sent| == |s.authors|
  {
    |By(s.sent[..p], s.authors[..p], a)|
  }

  // The frames of handler a that the client had read when it started forward k.
  ghost function ReadBefore(s: System, c0: C.Client, k: nat, a: nat): nat
    requires From(s, c0, k, a) && |s.srv.sent| == |s.srv.authors|
  {
    CountBy(s.srv, s.points[k - |c0.forwards|], a)
  }

  // The forward started at p: what it carries, and that the frame at p completed the request.
  lemma StartedWith(s: System, c0: C.Client, p: nat, k: nat, a: nat)
    requires Traced(s, c0) && k < |s.cli.forwards| && StartsAt(s, c0, p, k)
    requires p < |s.srv.authors| && s.srv.authors[p] == Some(a) && a < |s.srv.handlers|
    ensures p <= |s.srv.sent|
    ensures var u := s.srv.handlers[a].up;
            && u.Forwarded(CountBy(s.srv, p, a)) == []
            && u.Forwarded(CountBy(s.srv, p, a) + 1) == [C.DispatchOf(s.cli.forwards[k])]
  {
    StartedDispatch(s, c0, p, k);
    DispatchInTurn(s, c0, p, a);
    assert |s.srv.handlers[a].up.Forwarded(|By(s.srv.sent[..p], s.srv.authors[..p], a)| + 1)| <= 1;
  }

  lemma FrameOf(s: System, c0: C.Client, k: nat, a: nat)
    requires Signed(s.srv) && From(s, c0, k, a)
    ensures a < |s.srv.handlers|
  {
    assert SignedAt(s.srv, s.points[k - |c0.forwards|]);
  }

  lemma ForwardedDispatch(x: S.Handler, n: nat, d: Dispatch)
    requires Shape(x) && x.up.Forwarded(n) == [d]
    ensures Whole(x.up) && d == Dispatch(x.up.id, S.HeadOf(x.caller), S.BodyOf(x.caller))
  {
    ForwardedIsWhole(x, n);
  }

  lemma ShapeOf(s: S.Session, a: nat)
    requires Always(s) && a < |s.handlers|
    ensures Shape(s.handlers[a])
  {
  }

  lemma PointStarts(s: System, c0: C.Client, k: nat)
    requires PointsOK(s, c0) && |c0.forwards| <= k < |s.cli.forwards|
    ensures StartsAt(s, c0, s.points[k - |c0.forwards|], k)
  {
    assert StartsAt(s, c0, s.points[k - |c0.forwards|], |c0.forwards| + (k - |c0.forwards|));
  }

  // What StartedWith says of handler a, put in terms of forward k.
  lemma StartedRead(s: System, c0: C.Client, k: nat, a: nat)
    requires |c0.forwards| <= k < |s.cli.forwards| && From(s, c0, k, a) && |s.srv.sent| == |s.srv.authors|
    requires a < |s.srv.handlers| && Shape(s.srv.handlers[a])
    requires var u, n := s.srv.handlers[a].up, CountBy(s.srv, s.points[k - |c0.forwards|], a);
             u.Forwarded(n) == [] && u.Forwarded(n + 1) == [C.DispatchOf(s.cli.forwards[k])]
    ensures Whole(s.srv.handlers[a].up) && C.DispatchOf(s.cli.forwards[k]) == WholeRequest(s, a)
    ensures s.srv.handlers[a].up.Forwarded(ReadBefore(s, c0, k, a)) == []
    ensures s.srv.handlers[a].up.Forwarded(ReadBefore(s, c0, k, a) + 1) != []
  {
    ForwardedDispatch(s.srv.handlers[a], ReadBefore(s, c0, k, a) + 1, C.DispatchOf(s.cli.forwards[k]));
  }

  // Forward k: what it carries, and that the frame that started it completed the request.
  lemma StartedBy(s: System, c0: C.Client, k: nat, a: nat)
    requires Traced(s, c0) && |c0.forwards| <= k < |s.cli.forwards| && From(s, c0, k, a)
    ensures a < |s.srv.handlers| && Whole(s.srv.handlers[a].up) && C.DispatchOf(s.cli.forwards[k]) == WholeRequest(s, a)
    ensures s.srv.handlers[a].up.Forwarded(ReadBefore(s, c0, k, a)) == []
    ensures s.srv.handlers[a].up.Forwarded(ReadBefore(s, c0, k, a) + 1) != []
  {
    FrameOf(s, c0, k, a);
    PointStarts(s, c0, k);
    StartedWith(s, c0, s.points[k - |c0.forwards|], k, a);
    ShapeOf(s.srv, a);
    StartedRead(s, c0, k, a);
  }

  lemma HasAuthor(s: System, c0: C.Client, k: nat) returns (a: nat)
    requires Traced(s, c0) && |c0.forwards| <= k < |s.cli.forwards|
    ensures From(s, c0, k, a)
  {
    var p := s.points[k - |c0.forwards|];
    assert StartsAt(s, c0, p, k);
    StartedDispatch(s, c0, p, k);
    assert SignedAt(s.srv, p);
    a := s.srv.authors[p].value;
  }

  // Later frames find more of the author's frames before them.
  lemma MoreBefore(s: S.Session, p: nat, q: nat, a: nat)
    requires Signed(s) && p < q < |s.sent| && s.authors[p] == Some(a)
    ensures |By(s.sent[..p], s.authors[..p], a)| + 1 <= |By(s.sent[..q], s.authors[..q], a)|
  {
    assert s.sent[..p + 1] == s.sent[..p] + [s.sent[p]] && s.authors[..p + 1] == s.authors[..p] + [s.authors[p]];
    BySnoc(s.sent[..p], s.authors[..p], s.sent[p], s.authors[p], a);
    ByPrefix(s.sent[..q], s.authors[..q], a, p + 1);
    assert s.sent[..q][..p + 1] == s.sent[..p + 1] && s.authors[..q][..p + 1] == s.authors[..p + 1];
  }

  lemma DispatchesGrow(t: Table, fs: seq<Frame>, q: nat, p: nat)
    requires q <= p <= |fs|
    ensures |TableRun(t, fs[..q]).dispatched| <= |TableRun(t, fs[..p]).dispatched|
  {
    TableGrows(t, fs[..p], q);
    assert fs[..p][..q] == fs[..q];
  }

  lemma PointsInOrder(s: System, c0: C.Client, k: nat, j: nat)
    requires PointsOK(s, c0) && |c0.forwards| <= k < j < |s.cli.forwards|
    ensures s.points[k - |c0.forwards|] < s.points[j - |c0.forwards|]
  {
    var p, q := s.points[k - |c0.forwards|], s.points[j - |c0.forwards|];
    assert StartsAt(s, c0, p, k) && StartsAt(s, c0, q, j);
    if q <= p { DispatchesGrow(C.TableOf(c0), s.received, q, p); }
  }

  // A later forward started by the same handler would have found more of its frames.
  lemma MoreRead(s: System, c0: C.Client, k: nat, j: nat, a: nat)
    requires Signed(s.srv) && WiresOK(s) && PointsOK(s, c0) && |c0.forwards| <= k < j < |s.cli.forwards|
    requires From(s, c0, k, a) && From(s, c0, j, a)
    ensures ReadBefore(s, c0, k, a) + 1 <= ReadBefore(s, c0, j, a)
  {
    PointsInOrder(s, c0, k, j);
    assert StartsAt(s, c0, s.points[j - |c0.forwards|], j);
    assert |s.received| <= |s.srv.sent|;
    MoreBefore(s.srv, s.points[k - |c0.forwards|], s.points[j - |c0.forwards|], a);
  }

  // Once its frames have made the client forward, they never again do.
  lemma OnlyOnce(u: Sent, m: nat, n: nat)
    requires u.Forwarded(m + 1) != [] && m + 1 <= n
    ensures u.Forwarded(n) != []
  {
  }

  lemma TwoForwards(s: System, c0: C.Client, k: nat, j: nat, a: nat)
    requires Traced(s, c0) && |c0.forwards| <= k < j < |s.cli.forwards|
    requires From(s, c0, k, a)
    ensures !From(s, c0, j, a)
  {
    if From(s, c0, j, a) {
      StartedBy(s, c0, k, a);
      StartedBy(s, c0, j, a);
      MoreRead(s, c0, k, j, a);
      OnlyOnce(s.srv.handlers[a].up, ReadBefore(s, c0, k, a), ReadBefore(s, c0, j, a));
    }
  }

  // ---------------------------------------------------------------------- theorems

  lemma TracedHolds(earlier: seq<C.Step>, moves: seq<Move>)
    requires PacedMoves(C.Reconnected(earlier), moves)
    ensures Traced(Exec(Init(C.Reconnected(earlier)), moves), C.Reconnected(earlier))
  {
    var c0 := C.Reconnected(earlier);
    C.ReconnectedFaithful(earlier);
    PlumbingHolds(c0, moves);
    PointsHold(c0, moves);
    PacedFacts(c0, moves);
  }

  /** Uploads are all or nothing and forwarded at most once, however often ids wrap
      and whatever stale entries and running forwards an earlier connection left:
      every forward of this connection was started by a frame of one handler, whose
      whole request it carries and which, if there is a body, has sent its
      request_end; and no handler's frames started another forward. */
  lemma UploadsAllOrNothing(earlier: seq<C.Step>, moves: seq<Move>, k: nat)
    requires PacedMoves(C.Reconnected(earlier), moves)
    requires |C.Reconnected(earlier).forwards| <= k < |Exec(Init(C.Reconnected(earlier)), moves).cli.forwards|
    ensures var s, c0 := Exec(Init(C.Reconnected(earlier)), moves), C.Reconnected(earlier);
            exists h: nat :: From(s, c0, k, h) && h < |s.srv.handlers| && Whole(s.srv.handlers[h].up)
                        && C.DispatchOf(s.cli.forwards[k]) == WholeRequest(s, h)
                        && forall j :: 0 <= j < |s.cli.forwards| && j != k ==> !From(s, c0, j, h)
  {
    var s, c0 := Exec(Init(C.Reconnected(earlier)), moves), C.Reconnected(earlier);
    TracedHolds(earlier, moves);
    var h := HasAuthor(s, c0, k);
    StartedBy(s, c0, k, h);
    forall j | 0 <= j < |s.cli.forwards| && j != k ensures !From(s, c0, j, h) {
      if k < j {
        TwoForwards(s, c0, k, j, h);
      } else if |c0.forwards| <= j && From(s, c0, j, h) {
        TwoForwards(s, c0, j, k, h);
      }
    }
  }

  /** An upload that failed or was cancelled before request_end is never forwarded. */
  lemma BrokenUploadNeverForwarded(earlier: seq<C.Step>, moves: seq<Move>, h: nat, k: nat)
    requires PacedMoves(C.Reconnected(earlier), moves)
    requires h < |Exec(Init(C.Reconnected(earlier)), moves).srv.handlers|
    requires var x := Exec(Init(C.Reconnected(earlier)), moves).srv.handlers[h];
             x.caller.body.Some? && !x.up.ended
    ensures !From(Exec(Init(C.Reconnected(earlier)), moves), C.Reconnected(earlier), k, h)
  {
    var s, c0 := Exec(Init(C.Reconnected(earlier)), moves), C.Reconnected(earlier);
    TracedHolds(earlier, moves);
    assert Shape(s.srv.handlers[h]);
    if From(s, c0, k, h) {
      StartedBy(s, c0, k, h);
    }
  }
}
