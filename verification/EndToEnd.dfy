/** End to end: each caller sees a prefix of the answer to its own request, and
    the whole answer when its handler ends on a clean response_end. */
module EndToEnd {
  import opened Proto
  import opened Upload
  import opened HandlerShape
  import opened ServerSafety
  import opened Mailboxes
  import opened SentUploads
  import opened Forwards
  import opened System
  import S = Server
  import C = Client

  // ------------------------------------------------------ where forwards come from

  lemma {:induction false} DispatchesTwo(ds: seq<Dispatch>, k: nat, j: nat)
    requires k < j < |ds| && ds[k].id == ds[j].id
    ensures |DispatchesOf(ds, ds[k].id)| >= 2
  {
    var n := |ds| - 1;
    if j < n {
      DispatchesTwo(ds[..n], k, j);
    } else {
      DispatchesHas(ds[..n], k);
    }
  }

  // The requests the client has dispatched on this connection.
  ghost function NewDispatches(s: System, c0: C.Client): seq<Dispatch>
    requires |c0.forwards| <= |s.cli.forwards|
  {
    C.Dispatched(s.cli)[|c0.forwards|..]
  }

  lemma NewDispatchesLocal(s: System, c0: C.Client, i: ReqID)
    requires TableOK(s, c0)
    ensures DispatchesOf(NewDispatches(s, c0), i) == LocalRun(SlotOf(C.TableOf(c0), i), Proj(s.received, i)).out
  {
    Locality(C.TableOf(c0), s.received, i);
    DispatchesAfter(C.Dispatched(c0), C.Dispatched(s.cli), LocalRun(SlotOf(C.TableOf(c0), i), Proj(s.received,
      i)).out, i);
  }

  lemma DispatchesAfter(before: seq<Dispatch>, all: seq<Dispatch>, out: seq<Dispatch>, i: ReqID)
    requires before <= all && DispatchesOf(all, i) == DispatchesOf(before, i) + out
    ensures DispatchesOf(all[|before|..], i) == out
  {
    assert all == before + all[|before|..];
    DispatchesConcat(before, all[|before|..], i);
    var first, rest := DispatchesOf(before, i), DispatchesOf(all[|before|..], i);
    assert (first + rest)[|first|..] == rest;
    assert (first + out)[|first|..] == out;
  }

  /** What the client has dispatched for id i on this connection: nothing, or the
      whole request of the one handler that holds the id. */
  lemma DispatchedFor(s: System, c0: C.Client, i: ReqID)
    requires Plumbing(s, c0) && s.srv.adds < ID_SPACE
    ensures var ds := DispatchesOf(NewDispatches(s, c0), i);
            ds == [] || (i !in s.cli.pending && exists h :: Sender(s, h, i) && ds == [WholeRequest(s, h)])
  {
    NewDispatchesLocal(s, c0, i);
    Locality(C.TableOf(c0), s.received, i);
    var slot, got := SlotOf(C.TableOf(c0), i), Proj(s.received, i);
    ProjPrefix(s.received, s.srv.sent, i);
    if Taken(s.srv, i) {
      var h :| 0 <= h < |s.srv.handlers| && HasId(s.srv.handlers[h]) && s.srv.handlers[h].up.id == i;
      UploadOfHandler(s, h, slot, got);
    }
  }

  lemma UploadOfHandler(s: System, h: nat, slot: Option<Entry>, got: seq<Frame>)
    requires h < |s.srv.handlers| && HasId(s.srv.handlers[h]) && Shape(s.srv.handlers[h])
    requires got <= s.srv.handlers[h].up.Frames()
    ensures var ds := LocalRun(slot, got).out;
            ds == [] || (Sender(s, h, s.srv.handlers[h].up.id) && ds == [WholeRequest(s, h)] && LocalRun(slot,
              got).slot.None?)
  {
    UploadForwarded(slot, s.srv.handlers[h].up, got);
  }

  // Handler h holds id i and its request is complete on the queue.
  ghost predicate Sender(s: System, h: nat, i: ReqID) {
    h < |s.srv.handlers| &&
    var x := s.srv.handlers[h];
    HasId(x) && x.up.id == i && Whole(x.up)
  }

  lemma ForwardSender(s: System, c0: C.Client, k: nat)
    requires Plumbing(s, c0) && s.srv.adds < ID_SPACE && |c0.forwards| <= k < |s.cli.forwards|
    ensures exists h :: Sender(s, h, s.cli.forwards[k].id) && C.DispatchOf(s.cli.forwards[k]) == WholeRequest(s, h)
    ensures s.cli.forwards[k].id !in s.cli.pending
  {
    assert NewDispatches(s, c0)[k - |c0.forwards|] == C.DispatchOf(s.cli.forwards[k]);
    DispatchesHas(NewDispatches(s, c0), k - |c0.forwards|);
    DispatchedFor(s, c0, s.cli.forwards[k].id);
  }

  lemma ForwardIdsDistinct(s: System, c0: C.Client, k: nat, j: nat)
    requires Plumbing(s, c0) && s.srv.adds < ID_SPACE && |c0.forwards| <= k < j < |s.cli.forwards|
    ensures s.cli.forwards[k].id != s.cli.forwards[j].id
  {
    if s.cli.forwards[k].id == s.cli.forwards[j].id {
      DispatchesTwo(NewDispatches(s, c0), k - |c0.forwards|, j - |c0.forwards|);
      DispatchedFor(s, c0, s.cli.forwards[k].id);
    }
  }

  // ------------------------------------------------------------ what comes back

  // A forward past its last send.
  predicate Silent(x: C.Forward) {
    x.pc.Unwinding? || x.pc.Releasing? || x.pc.Over?
  }

  /** No forward left over from an earlier connection can still send. */
  ghost predicate Quiescent(c0: C.Client) {
    forall k :: 0 <= k < |c0.forwards| ==> Silent(c0.forwards[k])
  }

  // A forward that has nothing left to send, or only the end of a failed answer, or
  // that answers id 0, which a session hands out only after 2^32 increments.
  predicate Tame(x: C.Forward) {
    x.id == 0 || Silent(x) || (x.pc.Ending? && x.pc.err != "")
  }

  ghost predicate TameLeft(c0: C.Client) {
    forall k :: 0 <= k < |c0.forwards| ==> Tame(c0.forwards[k])
  }

  // Leftover x is still what it was on arrival, x0, or has become silent.
  predicate StaysTame(x0: C.Forward, x: C.Forward) {
    && x.id == x0.id
    && (x.id == 0 || Silent(x) || (x.pc.Ending? && x.pc.err != "" && x.pc == x0.pc))
  }

  // A forward of this connection answers id i.
  ghost predicate HasForward(c: C.Client, c0: C.Client, i: ReqID) {
    exists k :: |c0.forwards| <= k < |c.forwards| && c.forwards[k].id == i
  }

  // What a tame leftover can still send: the end of its failed answer.
  ghost predicate Stray(c0: C.Client, f: Frame) {
    && f.ResponseEnd? && f.error != ""
    && exists k :: 0 <= k < |c0.forwards| && c0.forwards[k].id == f.id && c0.forwards[k].pc == C.Ending(f.error)
  }

  ghost predicate NoEnd(fs: seq<Frame>) {
    forall k :: 0 <= k < |fs| ==> !fs[k].ResponseEnd?
  }

  // fs ends the response at e, and up to there is an initial part of out, or one
  // that a stray end cut off.
  ghost predicate EndsAt(c0: C.Client, fs: seq<Frame>, out: seq<Frame>, e: nat) {
    && e < |fs| && NoEnd(fs[..e]) && fs[e].ResponseEnd?
    && fs[..e] <= out && (fs[..e + 1] <= out || Stray(c0, fs[e]))
  }

  /** Up to its first response_end, fs is what one forward sent. */
  ghost predicate Tracks(c0: C.Client, fs: seq<Frame>, out: seq<Frame>) {
    if NoEnd(fs) then fs == out else exists e: nat :: EndsAt(c0, fs, out, e)
  }

  lemma EndStays(c0: C.Client, fs: seq<Frame>, out: seq<Frame>, e: nat, f: Frame, out': seq<Frame>)
    requires EndsAt(c0, fs, out, e) && out <= out'
    ensures EndsAt(c0, fs + [f], out', e)
  {
    assert (fs + [f])[..e] == fs[..e] && (fs + [f])[..e + 1] == fs[..e + 1] && (fs + [f])[e] == fs[e];
  }

  lemma TracksOwn(c0: C.Client, fs: seq<Frame>, out: seq<Frame>, f: Frame)
    requires Tracks(c0, fs, out)
    ensures Tracks(c0, fs + [f], out + [f])
  {
    if NoEnd(fs) {
      if f.ResponseEnd? {
        assert (fs + [f])[..|fs|] == fs && (fs + [f])[..|fs| + 1] == fs + [f];
        assert EndsAt(c0, fs + [f], out + [f], |fs|);
      }
    } else {
      var e: nat :| EndsAt(c0, fs, out, e);
      EndStays(c0, fs, out, e, f, out + [f]);
      assert (fs + [f])[e] == fs[e];
    }
  }

  lemma TracksStray(c0: C.Client, fs: seq<Frame>, out: seq<Frame>, f: Frame)
    requires Tracks(c0, fs, out) && Stray(c0, f)
    ensures Tracks(c0, fs + [f], out)
  {
    if NoEnd(fs) {
      assert (fs + [f])[..|fs|] == fs && (fs + [f])[|fs|] == f;
      assert EndsAt(c0, fs + [f], out, |fs|);
    } else {
      var e: nat :| EndsAt(c0, fs, out, e);
      EndStays(c0, fs, out, e, f, out);
      assert (fs + [f])[e] == fs[e];
    }
  }

  lemma TracksNothing(c0: C.Client, fs: seq<Frame>)
    requires forall f :: f in fs ==> Stray(c0, f)
    ensures Tracks(c0, fs, [])
  {
    if fs != [] {
      assert fs[0] in fs;
      assert EndsAt(c0, fs, [], 0);
    }
  }

  /** What one handler's id brought back since it registered. */
  ghost predicate Answers(c0: C.Client, fs: seq<Frame>, out: seq<Frame>) {
    Tracks(c0, fs, out) && (Quiescent(c0) ==> fs == out)
  }

  // No forward: at most stray ends came back.
  ghost predicate NoAnswer(s: System, c0: C.Client, i: ReqID) {
    (forall f :: f in Proj(s.emitted, i) ==> Stray(c0, f)) && (Quiescent(c0) ==> Proj(s.emitted, i) == [])
  }

  ghost predicate AnswerOK(s: System, c0: C.Client, x: S.Handler) {
    && x.base <= |s.srv.heard| && x.base <= |s.emitted| && x.up.id != 0
    && (Quiescent(c0) ==> Proj(s.emitted[..x.base], x.up.id) == [])
    && forall k :: |c0.forwards| <= k < |s.cli.forwards| && s.cli.forwards[k].id == x.up.id ==>
         Answers(c0, Proj(s.emitted[x.base..], x.up.id), s.cli.forwards[k].out)
  }

  ghost predicate LeftoversOK(s: System, c0: C.Client) {
    && |c0.forwards| <= |s.cli.forwards|
    && forall k :: 0 <= k < |c0.forwards| ==>
         StaysTame(c0.forwards[k], s.cli.forwards[k]) && (Quiescent(c0) ==> Silent(s.cli.forwards[k]))
  }

  /** The frames the client has sent for an id since its handler registered are those
      of its one forward, up to an end that a tame leftover may have sent. */
  ghost predicate AnswersOK(s: System, c0: C.Client) {
    s.srv.adds < ID_SPACE ==>
      && LeftoversOK(s, c0)
      && (forall i: ReqID :: i != 0 && !HasForward(s.cli, c0, i) ==> NoAnswer(s, c0, i))
      && (forall h :: 0 <= h < |s.srv.handlers| && EverRegistered(s.srv.handlers[h]) ==> AnswerOK(s, c0,
           s.srv.handlers[h]))
  }

  // ------------------------------------------------------------------ client steps

  lemma SendsOwn(x: C.Forward, m: C.FMove, broken: bool)
    ensures var fs := C.Sends(x, m, broken);
            fs == [] || (fs == [fs[0]] && Carries(fs[0], x.id))
  {
  }

  lemma EmitSnoc(emitted: seq<Frame>, fs: seq<Frame>, base: nat, id: ReqID, i: ReqID)
    requires base <= |emitted| && (fs == [] || (fs == [fs[0]] && Carries(fs[0], id)))
    ensures Proj((emitted + fs)[base..], i) == Proj(emitted[base..], i) + if i == id then fs else []
    ensures (emitted + fs)[..base] == emitted[..base]
  {
    assert (emitted + fs)[base..] == emitted[base..] + fs;
    EmitOwn(emitted[base..], fs, id, i);
  }

  lemma EmitOwn(emitted: seq<Frame>, fs: seq<Frame>, id: ReqID, i: ReqID)
    requires fs == [] || (fs == [fs[0]] && Carries(fs[0], id))
    ensures Proj(emitted + fs, i) == Proj(emitted, i) + if i == id then fs else []
  {
    if fs == [] {
      assert emitted + fs == emitted;
    } else {
      ProjSnoc(emitted, fs[0], i);
    }
  }

  lemma ForwardsStay(c: C.Client, d: C.Client, c0: C.Client, i: ReqID)
    requires |c.forwards| <= |d.forwards|
    requires forall k :: 0 <= k < |c.forwards| ==> d.forwards[k].id == c.forwards[k].id
    ensures HasForward(c, c0, i) ==> HasForward(d, c0, i)
  {
    if HasForward(c, c0, i) {
      var k :| |c0.forwards| <= k < |c.forwards| && c.forwards[k].id == i;
      assert d.forwards[k].id == i;
    }
  }

  // Forward k, of this connection or left over, sends fs, and nothing else changes.
  ghost predicate Emits(s: System, t: System, c0: C.Client, k: nat, fs: seq<Frame>) {
    && k < |s.cli.forwards| == |t.cli.forwards| && |c0.forwards| <= |s.cli.forwards| && t.srv == s.srv
    && t.emitted == s.emitted + fs
    && (fs == [] || (fs == [fs[0]] && Carries(fs[0], s.cli.forwards[k].id)))
    && t.cli.forwards[k].id == s.cli.forwards[k].id && t.cli.forwards[k].out == s.cli.forwards[k].out + fs
    && (forall j :: 0 <= j < |s.cli.forwards| && j != k ==> t.cli.forwards[j] == s.cli.forwards[j])
    && (if k < |c0.forwards| then
          && StaysTame(c0.forwards[k], t.cli.forwards[k]) && (Quiescent(c0) ==> Silent(t.cli.forwards[k]) && fs == [])
          && (fs != [] ==> s.cli.forwards[k].id == 0 || Stray(c0, fs[0]))
        else
          forall j :: |c0.forwards| <= j < |s.cli.forwards| && j != k ==> s.cli.forwards[j].id != s.cli.forwards[k].id)
  }

  lemma EmitNoAnswer(s: System, t: System, c0: C.Client, k: nat, fs: seq<Frame>, i: ReqID)
    requires Emits(s, t, c0, k, fs) && i != 0 && !HasForward(t.cli, c0, i)
    requires !HasForward(s.cli, c0, i) ==> NoAnswer(s, c0, i)
    ensures NoAnswer(t, c0, i)
  {
    ForwardsStay(s.cli, t.cli, c0, i);
    EmitOwn(s.emitted, fs, s.cli.forwards[k].id, i);
    if |c0.forwards| <= k { assert t.cli.forwards[k].id != i; }
  }

  lemma EmitAnswer(s: System, t: System, c0: C.Client, k: nat, fs: seq<Frame>, x: S.Handler)
    requires Emits(s, t, c0, k, fs) && AnswerOK(s, c0, x)
    ensures AnswerOK(t, c0, x)
  {
    EmitSnoc(s.emitted, fs, x.base, s.cli.forwards[k].id, x.up.id);
    forall j | |c0.forwards| <= j < |t.cli.forwards| && t.cli.forwards[j].id == x.up.id
      ensures Answers(c0, Proj(t.emitted[x.base..], x.up.id), t.cli.forwards[j].out)
    {
      EmitOne(s, t, c0, k, fs, x, j);
    }
  }

  lemma EmitOne(s: System, t: System, c0: C.Client, k: nat, fs: seq<Frame>, x: S.Handler, j: nat)
    requires Emits(s, t, c0, k, fs) && AnswerOK(s, c0, x) && |c0.forwards| <= j < |t.cli.forwards| &&
             t.cli.forwards[j].id == x.up.id
    requires Proj(t.emitted[x.base..], x.up.id) == Proj(s.emitted[x.base..],
             x.up.id) + if x.up.id == s.cli.forwards[k].id then fs else []
    ensures Answers(c0, Proj(t.emitted[x.base..], x.up.id), t.cli.forwards[j].out)
  {
    var before, out := Proj(s.emitted[x.base..], x.up.id), s.cli.forwards[j].out;
    assert Answers(c0, before, out) && before + [] == before && out + [] == out;
    if fs != [] && j == k {
      TracksOwn(c0, before, out, fs[0]);
    } else if fs != [] && x.up.id == s.cli.forwards[k].id {
      TracksStray(c0, before, out, fs[0]);
    }
  }

  lemma EmitAnswers(s: System, t: System, c0: C.Client, k: nat, fs: seq<Frame>)
    requires AnswersOK(s, c0) && Emits(s, t, c0, k, fs)
    ensures AnswersOK(t, c0)
  {
    if s.srv.adds < ID_SPACE {
      forall i: ReqID | i != 0 && !HasForward(t.cli, c0, i) ensures NoAnswer(t, c0, i) {
        EmitNoAnswer(s, t, c0, k, fs, i);
      }
      forall h | 0 <= h < |t.srv.handlers| && EverRegistered(t.srv.handlers[h]) ensures AnswerOK(t, c0,
        t.srv.handlers[h]) {
        EmitAnswer(s, t, c0, k, fs, t.srv.handlers[h]);
      }
    }
  }

  // A tame forward sends at most the end of a failed answer.
  lemma TameMoves(x0: C.Forward, x: C.Forward, m: C.FMove, broken: bool)
    requires StaysTame(x0, x)
    ensures var fs, y := C.Sends(x, m, broken), C.MoveForward(x, m, broken);
            && StaysTame(x0, y) && y.id == x.id && y.out == x.out + fs
            && (fs != [] ==> x.id == 0 || (x0.pc.Ending? && x0.pc.err != "" && fs[0] == ResponseEnd(x0.id, x0.pc.err)))
            && (Silent(x) ==> Silent(y) && fs == [])
  {
    C.MoveKeeps(x, m, broken);
  }

  lemma MoveShapeOf(s: System, k: nat, m: C.FMove)
    requires k < |s.cli.forwards|
    ensures var x, t := s.cli.forwards[k], Do(s, Cli(C.Move(k, m)));
            && t.cli.forwards == s.cli.forwards[k := C.MoveForward(x, m, s.cli.broken)] && t.srv == s.srv
            && t.emitted == s.emitted + C.Sends(x, m, s.cli.broken)
  {
    ClientExecOne(s.cli, C.Move(k, m));
  }

  lemma OwnMove(s: System, c0: C.Client, k: nat, m: C.FMove)
    requires Plumbing(s, c0) && AnswersOK(s, c0) && |c0.forwards| <= k < |s.cli.forwards|
    ensures AnswersOK(Do(s, Cli(C.Move(k, m))), c0)
  {
    var x := s.cli.forwards[k];
    MoveShapeOf(s, k, m);
    C.MoveKeeps(x, m, s.cli.broken);
    SendsOwn(x, m, s.cli.broken);
    if s.srv.adds < ID_SPACE {
      forall j | |c0.forwards| <= j < |s.cli.forwards| && j != k ensures s.cli.forwards[j].id != x.id {
        if j < k { ForwardIdsDistinct(s, c0, j, k); } else { ForwardIdsDistinct(s, c0, k, j); }
      }
      EmitAnswers(s, Do(s, Cli(C.Move(k, m))), c0, k, C.Sends(x, m, s.cli.broken));
    }
  }

  lemma LeftoverMove(s: System, c0: C.Client, k: nat, m: C.FMove)
    requires AnswersOK(s, c0) && k < |c0.forwards| && k < |s.cli.forwards|
    ensures AnswersOK(Do(s, Cli(C.Move(k, m))), c0)
  {
    var x := s.cli.forwards[k];
    MoveShapeOf(s, k, m);
    SendsOwn(x, m, s.cli.broken);
    if s.srv.adds < ID_SPACE {
      TameMoves(c0.forwards[k], x, m, s.cli.broken);
      EmitAnswers(s, Do(s, Cli(C.Move(k, m))), c0, k, C.Sends(x, m, s.cli.broken));
    }
  }

  // Steps that send no frame of a request and change no forward's frames.
  ghost predicate KeepsAnswers(c: C.Client, d: C.Client) {
    |d.forwards| == |c.forwards| && forall k :: 0 <= k < |c.forwards| ==>
      && d.forwards[k].id == c.forwards[k].id && d.forwards[k].out == c.forwards[k].out
      && (Silent(c.forwards[k]) ==> Silent(d.forwards[k]))
      && (c.forwards[k].pc.Ending? ==> d.forwards[k].pc == c.forwards[k].pc)
  }

  lemma QuietAnswer(s: System, t: System, c0: C.Client, x: S.Handler)
    requires AnswerOK(s, c0, x) && KeepsAnswers(s.cli, t.cli) && t.srv == s.srv
    requires t.emitted == s.emitted || t.emitted == s.emitted + [Control]
    ensures AnswerOK(t, c0, x)
  {
    if t.emitted != s.emitted {
      assert t.emitted[x.base..] == s.emitted[x.base..] + [Control] && t.emitted[..x.base] == s.emitted[..x.base];
      ProjSnoc(s.emitted[x.base..], Control, x.up.id);
      assert Proj(s.emitted[x.base..], x.up.id) + [] == Proj(s.emitted[x.base..], x.up.id);
    }
    forall k | |c0.forwards| <= k < |t.cli.forwards| && t.cli.forwards[k].id == x.up.id
      ensures Answers(c0, Proj(t.emitted[x.base..], x.up.id), t.cli.forwards[k].out)
    {
      assert t.cli.forwards[k].out == s.cli.forwards[k].out && s.cli.forwards[k].id == x.up.id;
    }
  }

  lemma QuietAnswers(s: System, t: System, c0: C.Client)
    requires AnswersOK(s, c0) && KeepsAnswers(s.cli, t.cli) && t.srv == s.srv
    requires t.emitted == s.emitted || t.emitted == s.emitted + [Control]
    ensures AnswersOK(t, c0)
  {
    if s.srv.adds < ID_SPACE {
      forall i: ReqID | i != 0 && !HasForward(t.cli, c0, i) ensures NoAnswer(t, c0, i) {
        ProjSnoc(s.emitted, Control, i);
        ForwardsStay(s.cli, t.cli, c0, i);
      }
      forall h | 0 <= h < |t.srv.handlers| && EverRegistered(t.srv.handlers[h]) ensures AnswerOK(t, c0,
        t.srv.handlers[h]) {
        QuietAnswer(s, t, c0, t.srv.handlers[h]);
      }
    }
  }

  lemma SlotKeepsAnswers(c: C.Client, st: C.Step)
    requires st.Acquire? || st.Release?
    ensures KeepsAnswers(c, C.Do(c, st))
  {
  }

  lemma ListKeepsAnswers(c: C.Client, st: C.Step)
    requires st.Activate? || st.Deactivate?
    ensures KeepsAnswers(c, C.Do(c, st))
  {
  }

  lemma TagKeepsAnswers(c: C.Client, st: C.Step)
    requires !st.Receive? && !st.Move?
    ensures KeepsAnswers(c, C.Do(c, st))
  {
    if st.Acquire? || st.Release? {
      SlotKeepsAnswers(c, st);
    } else if st.Activate? || st.Deactivate? {
      ListKeepsAnswers(c, st);
    }
  }

  lemma TagAnswers(s: System, c0: C.Client, st: C.Step)
    requires AnswersOK(s, c0) && !st.Receive? && !st.Reconnect? && !st.Move?
    ensures AnswersOK(Do(s, Cli(st)), c0)
  {
    var t := Do(s, Cli(st));
    ClientExecOne(s.cli, st);
    TagKeepsAnswers(s.cli, st);
    if st.SendControl? && !s.cli.broken {
      assert t.emitted == s.emitted + [Control];
    } else {
      assert t.emitted == s.emitted;
    }
    QuietAnswers(s, t, c0);
  }

  lemma ClientStepAnswers(s: System, c0: C.Client, st: C.Step)
    requires Plumbing(s, c0) && AnswersOK(s, c0)
    ensures AnswersOK(Do(s, Cli(st)), c0)
  {
    if st.Receive? || st.Reconnect? {
      assert Do(s, Cli(st)) == s by { assert s.up + [] == s.up && s.emitted + [] == s.emitted; }
    } else if !st.Move? {
      TagAnswers(s, c0, st);
    } else if st.k >= |s.cli.forwards| {
      ClientExecOne(s.cli, st);
      assert Do(s, Cli(st)) == s by { assert s.up + [] == s.up && s.emitted + [] == s.emitted; }
    } else if st.k < |c0.forwards| {
      LeftoverMove(s, c0, st.k, st.m);
    } else {
      OwnMove(s, c0, st.k, st.m);
    }
  }

  // ------------------------------------------------------------------ a new forward

  lemma ReceiveKeeps(c: C.Client, f: Frame)
    ensures var d := C.DoReceive(c, f);
            && |c.forwards| <= |d.forwards| <= |c.forwards| + 1
            && (forall k :: 0 <= k < |c.forwards| ==>
                  && d.forwards[k].id == c.forwards[k].id && d.forwards[k].out == c.forwards[k].out
                  && d.forwards[k].pc == c.forwards[k].pc)
            && (|d.forwards| > |c.forwards| ==> d.forwards[|c.forwards|].out == [])
  {
  }

  lemma NewIdFree(s: System, t: System, c0: C.Client)
    requires Plumbing(t, c0) && t.srv.adds < ID_SPACE && |t.cli.forwards| == |s.cli.forwards| + 1
    requires forall k :: 0 <= k < |s.cli.forwards| ==> t.cli.forwards[k].id == s.cli.forwards[k].id
    ensures !HasForward(s.cli, c0, t.cli.forwards[|s.cli.forwards|].id)
  {
    var n := |s.cli.forwards|;
    forall k | |c0.forwards| <= k < n ensures s.cli.forwards[k].id != t.cli.forwards[n].id {
      ForwardIdsDistinct(t, c0, k, n);
    }
  }

  // The forwards of s, and perhaps one more that has sent nothing.
  ghost predicate Grown(s: System, t: System, c0: C.Client) {
    && t.emitted == s.emitted && t.srv == s.srv &&
         |c0.forwards| <= |s.cli.forwards| <= |t.cli.forwards| <= |s.cli.forwards| + 1
    && (forall k :: 0 <= k < |s.cli.forwards| ==>
          && t.cli.forwards[k].id == s.cli.forwards[k].id && t.cli.forwards[k].out == s.cli.forwards[k].out
          && t.cli.forwards[k].pc == s.cli.forwards[k].pc)
    && (|t.cli.forwards| > |s.cli.forwards| ==>
          && t.cli.forwards[|s.cli.forwards|].out == []
          && !HasForward(s.cli, c0, t.cli.forwards[|s.cli.forwards|].id))
  }

  lemma GrownAnswer(s: System, t: System, c0: C.Client, x: S.Handler)
    requires Grown(s, t, c0) && AnswerOK(s, c0, x)
    requires !HasForward(s.cli, c0, x.up.id) ==> NoAnswer(s, c0, x.up.id)
    ensures AnswerOK(t, c0, x)
  {
    forall k | |c0.forwards| <= k < |t.cli.forwards| && t.cli.forwards[k].id == x.up.id
      ensures Answers(c0, Proj(t.emitted[x.base..], x.up.id), t.cli.forwards[k].out)
    {
      if k == |s.cli.forwards| {
        assert s.emitted == s.emitted[..x.base] + s.emitted[x.base..];
        ProjConcat(s.emitted[..x.base], s.emitted[x.base..], x.up.id);
        TracksNothing(c0, Proj(s.emitted[x.base..], x.up.id));
      }
    }
  }

  lemma GrownAnswers(s: System, t: System, c0: C.Client)
    requires AnswersOK(s, c0) && Grown(s, t, c0)
    ensures AnswersOK(t, c0)
  {
    if s.srv.adds < ID_SPACE {
      forall i: ReqID ensures HasForward(s.cli, c0, i) ==> HasForward(t.cli, c0, i) {
        ForwardsStay(s.cli, t.cli, c0, i);
      }
      forall h | 0 <= h < |t.srv.handlers| && EverRegistered(t.srv.handlers[h]) ensures AnswerOK(t, c0,
        t.srv.handlers[h]) {
        GrownAnswer(s, t, c0, t.srv.handlers[h]);
      }
    }
  }

  lemma ReadAnswers(s: System, c0: C.Client)
    requires Plumbing(s, c0) && Plumbing(Do(s, ClientReads), c0) && AnswersOK(s, c0)
    ensures AnswersOK(Do(s, ClientReads), c0)
  {
    var t := Do(s, ClientReads);
    if s.down != [] && s.srv.adds < ID_SPACE {
      ClientExecOne(s.cli, C.Receive(s.down[0]));
      ReceiveKeeps(s.cli, s.down[0]);
      if |t.cli.forwards| > |s.cli.forwards| {
        NewIdFree(s, t, c0);
      }
      GrownAnswers(s, t, c0);
    }
  }

  // ------------------------------------------------------------------ session steps

  // Nobody answers an id whose holder has sent nothing.
  lemma NobodyAnswers(s: System, c0: C.Client, h: nat)
    requires Plumbing(s, c0) && s.srv.adds < ID_SPACE
    requires h < |s.srv.handlers| && HasId(s.srv.handlers[h]) && !s.srv.handlers[h].up.started
    ensures !HasForward(s.cli, c0, s.srv.handlers[h].up.id)
  {
    var i := s.srv.handlers[h].up.id;
    if HasForward(s.cli, c0, i) {
      var k :| |c0.forwards| <= k < |s.cli.forwards| && s.cli.forwards[k].id == i;
      ForwardSender(s, c0, k);
      var g :| Sender(s, g, i);
      IdsDistinct(s.srv, h, g);
    }
  }

  lemma RegisteredAnswer(s: System, c0: C.Client, h: nat)
    requires Plumbing(s, c0) && AnswersOK(s, c0) && S.At(s.srv, h, S.Registering) && s.srv.adds < ID_SPACE
    ensures AnswerOK(s.(srv := S.DoRegister(s.srv, h)), c0, S.DoRegister(s.srv, h).handlers[h])
  {
    var x := s.srv.handlers[h];
    assert Shape(x) && Role(s.srv, x);
    NobodyAnswers(s, c0, h);
    assert x.up.id == x.tick;
    assert s.srv.heard <= s.emitted;
    ProjPrefix(s.emitted[..|s.srv.heard|], s.emitted, x.up.id);
  }

  lemma RegisterAnswers(s: System, c0: C.Client, h: nat)
    requires Plumbing(s, c0) && AnswersOK(s, c0) && S.At(s.srv, h, S.Registering)
    ensures AnswersOK(s.(srv := S.DoRegister(s.srv, h)), c0)
  {
    var t := s.(srv := S.DoRegister(s.srv, h));
    if s.srv.adds < ID_SPACE {
      RegisteredAnswer(s, c0, h);
      forall k | 0 <= k < |t.srv.handlers| && EverRegistered(t.srv.handlers[k]) ensures AnswerOK(t, c0,
        t.srv.handlers[k]) {
        if k != h { assert AnswerOK(s, c0, s.srv.handlers[k]); }
      }
    }
  }

  // A session step that registers nobody keeps ids and bases of registered handlers.
  ghost predicate KeepsBases(s: S.Session, t: S.Session) {
    && s.adds <= t.adds && s.heard <= t.heard && |s.handlers| <= |t.handlers|
    && (forall h :: 0 <= h < |t.handlers| && (Registered(t.handlers[h]) || t.handlers[h].pc.Gone?) ==>
          && h < |s.handlers| && (Registered(s.handlers[h]) || s.handlers[h].pc.Gone?)
          && t.handlers[h].base == s.handlers[h].base && t.handlers[h].up.id == s.handlers[h].up.id)
  }

  lemma KeptAnswers(s: System, t: System, c0: C.Client)
    requires AnswersOK(s, c0) && KeepsBases(s.srv, t.srv) && t.cli == s.cli && t.emitted == s.emitted
    ensures AnswersOK(t, c0)
  {
    if t.srv.adds < ID_SPACE {
      forall h | 0 <= h < |t.srv.handlers| && EverRegistered(t.srv.handlers[h]) ensures AnswerOK(t, c0,
        t.srv.handlers[h]) {
        assert AnswerOK(s, c0, s.srv.handlers[h]);
      }
      forall i: ReqID | i != 0 && !HasForward(t.cli, c0, i) ensures NoAnswer(t, c0, i) {
        assert NoAnswer(s, c0, i);
      }
    }
  }

  lemma StepKeepsBases(s: S.Session, st: S.Step)
    requires Always(s) && !st.Register?
    ensures KeepsBases(s, S.Do(s, st))
  {
    if st.Act? {
      if st.h < |s.handlers| { MoveSameRole(s.handlers[st.h], st.m, s.closed, s.doneCloses > 0); }
    } else if st.Enqueue? {
      EnqueueKeepsBases(s, st.h);
    } else if st.Unregister? {
      UnregisterKeepsBases(s, st.h);
    } else if st.Arrive? || st.AddID? || st.CheckID? {
      BookKeepsBases(s, st);
    } else {
      QuietKeepsBases(s, st);
    }
  }

  lemma EnqueueKeepsBases(s: S.Session, h: nat)
    ensures KeepsBases(s, S.Do(s, S.Enqueue(h)))
  {
    if h < |s.handlers| && s.handlers[h].pc.Sending? {
      AcceptedKeepsFrames(s.handlers[h]);
    }
  }

  lemma BookKeepsBases(s: S.Session, st: S.Step)
    requires st.Arrive? || st.AddID? || st.CheckID?
    ensures KeepsBases(s, S.Do(s, st))
  {
  }

  lemma UnregisterKeepsBases(s: S.Session, h: nat)
    ensures KeepsBases(s, S.Do(s, S.Unregister(h)))
  {
  }

  lemma QuietKeepsBases(s: S.Session, st: S.Step)
    requires st.SendControl? || st.Write? || st.ReadFrame? || st.Deliver? || st.DropBlocked? || st.StopReading?
          || st.CallClose? || st.Swap? || st.Signal? || st.Drain? || st.Detach?
    ensures KeepsBases(s, S.Do(s, st))
  {
  }

  lemma ServerMoveFrame(s: System, m: Move)
    requires m.Srv? || m.ServerWrites? || m.ServerReads?
    ensures Do(s, m).cli == s.cli && Do(s, m).emitted == s.emitted
    ensures var part := ServerPart(s, m);
            if part == [] then Do(s, m).srv == s.srv else part == [part[0]] && Do(s, m).srv == S.Do(s.srv, part[0])
  {
    var part := ServerPart(s, m);
    if part != [] {
      ServerExecOne(s.srv, part[0]);
    }
  }

  lemma ServerAnswers(s: System, c0: C.Client, m: Move)
    requires Plumbing(s, c0) && AnswersOK(s, c0) && (m.Srv? || m.ServerWrites? || m.ServerReads?)
    ensures AnswersOK(Do(s, m), c0)
  {
    var t, part := Do(s, m), ServerPart(s, m);
    ServerMoveFrame(s, m);
    if part == [] {
      KeptAnswers(s, t, c0);
    } else if part[0].Register? && S.At(s.srv, part[0].h, S.Registering) {
      RegisterAnswers(s, c0, part[0].h);
      SameAnswers(s.(srv := t.srv), t, c0);
    } else if part[0].Register? {
      KeptAnswers(s, t, c0);
    } else {
      StepKeepsBases(s.srv, part[0]);
      KeptAnswers(s, t, c0);
    }
  }

  // The wires and what was received play no part.
  lemma SameAnswers(s: System, t: System, c0: C.Client)
    requires AnswersOK(s, c0) && t.srv == s.srv && t.cli == s.cli && t.emitted == s.emitted
    ensures AnswersOK(t, c0)
  {
    if s.srv.adds < ID_SPACE {
      forall h | 0 <= h < |t.srv.handlers| && EverRegistered(t.srv.handlers[h]) ensures AnswerOK(t, c0,
        t.srv.handlers[h]) {
        assert AnswerOK(s, c0, s.srv.handlers[h]);
      }
      forall i: ReqID | i != 0 && !HasForward(t.cli, c0, i) ensures NoAnswer(t, c0, i) {
        assert NoAnswer(s, c0, i);
      }
    }
  }

  lemma StepAnswers(s: System, c0: C.Client, m: Move)
    requires Plumbing(s, c0) && Plumbing(Do(s, m), c0) && AnswersOK(s, c0)
    ensures AnswersOK(Do(s, m), c0)
  {
    match m
    case ClientReads => ReadAnswers(s, c0);
    case Cli(st) => ClientStepAnswers(s, c0, st);
    case _ => ServerAnswers(s, c0, m);
  }

  // --------------------------------------------------- starts come before ends

  // Forwards from n on end only after they have started, as long as the connection
  // is the one they were started on.
  ghost predicate StartsOK(c: C.Client, n: nat) {
    forall k :: n <= k < |c.forwards| ==>
      && (c.forwards[k].ended.Some? ==> c.forwards[k].started)
      && (c.forwards[k].pc.Ending? && !c.forwards[k].started ==> c.broken)
  }

  lemma MoveStarts(x: C.Forward, m: C.FMove, broken: bool)
    requires C.Faithful(x)
    requires (x.ended.Some? ==> x.started) && (x.pc.Ending? && !x.started ==> broken)
    ensures var y := C.MoveForward(x, m, broken);
            (y.ended.Some? ==> y.started) && (y.pc.Ending? && !y.started ==> broken)
  {
  }

  lemma TagStarts(c: C.Client, st: C.Step, n: nat)
    requires StartsOK(c, n) && !st.Move? && !st.Receive? && !st.Reconnect?
    ensures StartsOK(C.Do(c, st), n)
  {
  }

  lemma ReceiveStarts(c: C.Client, f: Frame, n: nat)
    requires StartsOK(c, n)
    ensures StartsOK(C.DoReceive(c, f), n)
  {
  }

  lemma StepStarts(c: C.Client, st: C.Step, n: nat)
    requires StartsOK(c, n) && C.AllFaithful(c) && !st.Reconnect?
    ensures StartsOK(C.Do(c, st), n)
  {
    match st
    case Receive(f) => ReceiveStarts(c, f, n);
    case Move(k, m) => if k < |c.forwards| { if n <= k { MoveStarts(c.forwards[k], m, c.broken); } }
    case _ => TagStarts(c, st, n);
  }

  lemma StepStartsIn(s: System, c0: C.Client, m: Move)
    requires C.AllFaithful(s.cli) && StartsOK(s.cli, |c0.forwards|)
    ensures StartsOK(Do(s, m).cli, |c0.forwards|)
  {
    var part := ClientPart(s, m);
    if part != [] {
      assert part == [part[0]];
      ClientExecOne(s.cli, part[0]);
      StepStarts(s.cli, part[0], |c0.forwards|);
    }
  }

  ghost predicate Composed(s: System, c0: C.Client) {
    Plumbing(s, c0) && AnswersOK(s, c0) && StartsOK(s.cli, |c0.forwards|)
  }

  lemma {:induction false} ComposedHolds(c0: C.Client, moves: seq<Move>)
    requires C.AllFaithful(c0) && TameLeft(c0)
    ensures Composed(Exec(Init(c0), moves), c0)
  {
    PlumbingHolds(c0, moves);
    if moves != [] {
      var before := moves[..|moves| - 1];
      ComposedHolds(c0, before);
      StepAnswers(Exec(Init(c0), before), c0, moves[|moves| - 1]);
      StepStartsIn(Exec(Init(c0), before), c0, moves[|moves| - 1]);
    }
  }
}
