/** Which cancels are lost.  For an id that no earlier forward still before its
    deferred clean-up has, `active` names exactly the forward between registering and
    cleaning up that has not been cancelled yet; a cancel that comes before is lost,
    and a run shows it. */
module Cancels {
  import opened Proto
  import opened System
  import opened Mailboxes
  import opened EndToEnd
  import opened Runs
  import L = ClientLimits
  import S = Server
  import C = Client

  // Past the deferred delete(c.active, reqID).
  predicate Unlisted(x: C.Forward) {
    x.pc.Releasing? || x.pc.Over?
  }

  /** No forward left over from an earlier connection will touch id i's entry again. */
  ghost predicate Cleared(c0: C.Client, i: ReqID) {
    forall k :: 0 <= k < |c0.forwards| && c0.forwards[k].id == i ==> Unlisted(c0.forwards[k])
  }

  predicate Named(c: C.Client, k: nat) {
    k < |c.forwards| && c.forwards[k].id in c.active && c.active[c.forwards[k].id] == k
  }

  // Forwards of id i from n on are named exactly while listed and not cancelled.
  ghost predicate Exact(c: C.Client, n: nat, i: ReqID) {
    && n <= |c.forwards| && L.SlotsOK(c) && L.ActiveOK(c)
    && (forall k :: 0 <= k < n && c.forwards[k].id == i ==> Unlisted(c.forwards[k]))
    && (forall k :: n <= k < |c.forwards| && c.forwards[k].id == i ==>
          && (Named(c, k) <==> C.Listed(c.forwards[k]) && !c.forwards[k].cancelled)
          && (c.forwards[k].pc.Waiting? || c.forwards[k].pc.Slotted? ==> !c.forwards[k].cancelled))
  }

  ghost predicate Alone(c: C.Client, n: nat, i: ReqID) {
    forall k, j :: n <= k < j < |c.forwards| ==> !(c.forwards[k].id == i && c.forwards[j].id == i)
  }

  // ------------------------------------------------------------------------- steps

  lemma TagOfPump(x: C.Forward, data: Bytes, end: ReadEnd, broken: bool)
    requires x.pc.Pumping?
    ensures var y := C.DoPump(x, data, end, broken);
            y.cancelled == x.cancelled && !y.pc.Waiting? && !y.pc.Slotted?
  {
  }

  lemma TagOfAdvance(x: C.Forward, m: C.FMove, broken: bool)
    ensures C.Advance(x, m, broken).cancelled == x.cancelled
    ensures Unlisted(x) || x.pc.Waiting? || x.pc.Slotted? ==> C.Advance(x, m, broken) == x
    ensures C.Advance(x, m, broken).pc.Waiting? ==> x.pc.Waiting?
    ensures C.Advance(x, m, broken).pc.Slotted? ==> x.pc.Slotted?
  {
    if m.Pump? {
      if x.pc.Pumping? { TagOfPump(x, m.data, m.end, broken); }
    }
  }

  // A step of one forward that leaves what `active` should say of it alone.
  predicate KeepsTag(x: C.Forward, y: C.Forward) {
    && y.id == x.id && y.cancelled == x.cancelled && C.Listed(y) == C.Listed(x)
    && (Unlisted(x) ==> Unlisted(y)) && (y.pc.Waiting? || y.pc.Slotted? ==> x.pc.Waiting? || x.pc.Slotted?)
  }

  lemma MoveKeepsTag(x: C.Forward, m: C.FMove, broken: bool)
    ensures KeepsTag(x, C.MoveForward(x, m, broken))
  {
    C.MoveKeeps(x, m, broken);
    TagOfAdvance(x, m, broken);
  }

  // Every forward keeps its tag, and `active` stays.
  lemma SameTags(c: C.Client, d: C.Client, n: nat, i: ReqID)
    requires Exact(c, n, i) && L.SlotsOK(d) && L.ActiveOK(d) && d.active == c.active && |d.forwards| == |c.forwards|
    requires forall k :: 0 <= k < |c.forwards| ==> KeepsTag(c.forwards[k], d.forwards[k])
    ensures Exact(d, n, i)
  {
    forall j | n <= j < |d.forwards| ensures Named(d, j) <==> Named(c, j) {
      assert KeepsTag(c.forwards[j], d.forwards[j]);
    }
  }

  lemma MoveTags(c: C.Client, k: nat, m: C.FMove)
    ensures var d := C.Do(c, C.Move(k, m));
            d.active == c.active && |d.forwards| == |c.forwards|
            && forall j :: 0 <= j < |c.forwards| ==> KeepsTag(c.forwards[j], d.forwards[j])
  {
    if k < |c.forwards| {
      MoveKeepsTag(c.forwards[k], m, c.broken);
    }
  }

  lemma SlotTags(c: C.Client, st: C.Step)
    requires st.Acquire? || st.Release? || st.SendControl? || st.Break? || st.Reconnect?
    ensures var d := C.Do(c, st);
            d.active == c.active && |d.forwards| == |c.forwards|
            && forall j :: 0 <= j < |c.forwards| ==> KeepsTag(c.forwards[j], d.forwards[j])
  {
  }

  lemma QuietExact(c: C.Client, n: nat, i: ReqID, st: C.Step)
    requires Exact(c, n, i)
    requires st.Move? || st.Acquire? || st.Release? || st.SendControl? || st.Break? || st.Reconnect?
    ensures Exact(C.Do(c, st), n, i)
  {
    L.StepLimits(c, st);
    if st.Move? { MoveTags(c, st.k, st.m); } else { SlotTags(c, st); }
    SameTags(c, C.Do(c, st), n, i);
  }

  // Forward k enters or leaves `active`; the others keep their tags.
  ghost predicate Relisted(c: C.Client, d: C.Client, k: nat) {
    && k < |c.forwards| == |d.forwards| && (d.forwards[k].id == c.forwards[k].id)
    && (forall j :: 0 <= j < |c.forwards| && j != k ==> d.forwards[j] == c.forwards[j])
    && (forall id :: id != c.forwards[k].id ==>
          (id in d.active <==> id in c.active) && (id in d.active ==> d.active[id] == c.active[id]))
    && d.forwards[k].cancelled == c.forwards[k].cancelled
  }

  lemma RelistedOther(c: C.Client, d: C.Client, n: nat, i: ReqID, k: nat, j: nat)
    requires Alone(c, n, i) && Relisted(c, d, k) && (c.forwards[k].id == i ==> n <= k)
    requires n <= j < |c.forwards| && j != k && c.forwards[j].id == i
    ensures Named(d, j) <==> Named(c, j)
  {
  }

  lemma RelistedOthers(c: C.Client, d: C.Client, n: nat, i: ReqID, k: nat)
    requires Exact(c, n, i) && Alone(c, n, i) && Relisted(c, d, k) && L.SlotsOK(d) && L.ActiveOK(d)
    requires c.forwards[k].id == i ==> n <= k
    requires n <= k && c.forwards[k].id == i ==>
               && (Named(d, k) <==> C.Listed(d.forwards[k]) && !d.forwards[k].cancelled)
               && !d.forwards[k].pc.Waiting? && !d.forwards[k].pc.Slotted?
    ensures Exact(d, n, i)
  {
    forall j | n <= j < |d.forwards| && j != k && c.forwards[j].id == i ensures Named(d, j) <==> Named(c, j) {
      RelistedOther(c, d, n, i, k, j);
    }
  }

  lemma ActivateExact(c: C.Client, n: nat, i: ReqID, k: nat)
    requires Exact(c, n, i) && Alone(c, n, i) && C.At(c, k, C.Slotted)
    ensures Exact(C.Do(c, C.Activate(k)), n, i)
  {
    L.StepLimits(c, C.Activate(k));
    RelistedByActivate(c, k);
    ListedHere(c, n, i, k);
    RelistedOthers(c, C.Do(c, C.Activate(k)), n, i, k);
  }

  lemma RelistedByActivate(c: C.Client, k: nat)
    requires C.At(c, k, C.Slotted)
    ensures var d := C.Do(c, C.Activate(k)); Relisted(c, d, k) && d.forwards[k].pc.Asking? && Named(d, k)
  {
  }

  // A forward of id i that still has to enter or leave `active` is of this connection.
  lemma ListedHere(c: C.Client, n: nat, i: ReqID, k: nat)
    requires Exact(c, n, i) && k < |c.forwards| && !Unlisted(c.forwards[k])
    ensures c.forwards[k].id == i ==> n <= k
  {
  }

  lemma RelistedByDeactivate(c: C.Client, k: nat)
    requires C.At(c, k, C.Unwinding)
    ensures var d := C.Do(c, C.Deactivate(k)); Relisted(c, d, k) && d.forwards[k].pc.Releasing? && !Named(d, k)
  {
  }

  lemma DeactivateExact(c: C.Client, n: nat, i: ReqID, k: nat)
    requires Exact(c, n, i) && Alone(c, n, i) && C.At(c, k, C.Unwinding)
    ensures Exact(C.Do(c, C.Deactivate(k)), n, i)
  {
    L.StepLimits(c, C.Deactivate(k));
    RelistedByDeactivate(c, k);
    ListedHere(c, n, i, k);
    RelistedOthers(c, C.Do(c, C.Deactivate(k)), n, i, k);
  }

  lemma FrameShape(c: C.Client, f: Frame)
    requires !f.Cancel?
    ensures var d := C.DoReceive(c, f);
            && d.active == c.active && c.forwards <= d.forwards
            && forall k :: |c.forwards| <= k < |d.forwards| ==> d.forwards[k].pc.Waiting? && !d.forwards[k].cancelled
  {
  }

  // Receiving anything but a cancel.
  lemma FrameExact(c: C.Client, n: nat, i: ReqID, f: Frame)
    requires Exact(c, n, i) && !f.Cancel?
    ensures Exact(C.DoReceive(c, f), n, i)
  {
    var d := C.DoReceive(c, f);
    L.StepLimits(c, C.Receive(f));
    FrameShape(c, f);
    forall k | n <= k < |d.forwards| ensures k < |c.forwards| ==> (Named(d, k) <==> Named(c, k)) {
    }
  }

  // A cancel of id j, forward by forward.
  ghost predicate CancelledOne(c: C.Client, d: C.Client, j: ReqID) {
    && |d.forwards| == |c.forwards| && d.active == c.active - {j}
    && forall k :: 0 <= k < |c.forwards| ==>
         d.forwards[k] == c.forwards[k].(cancelled := c.forwards[k].cancelled || (j in c.active && c.active[j] == k))
  }

  lemma CancelSize(c: C.Client, j: ReqID)
    ensures |C.DoReceive(c, Cancel(j)).forwards| == |c.forwards|
  {
    L.CancelDispatchesNothing(c, j);
  }

  lemma CancelShape(c: C.Client, j: ReqID)
    ensures CancelledOne(c, C.DoReceive(c, Cancel(j)), j)
  {
    var d := C.DoReceive(c, Cancel(j));
    CancelSize(c, j);
    forall k | 0 <= k < |c.forwards|
      ensures d.forwards[k] ==
              c.forwards[k].(cancelled := c.forwards[k].cancelled || (j in c.active && c.active[j] == k))
    {
      L.CancelReaches(c, j, k);
    }
  }

  lemma CancelledExact(c: C.Client, d: C.Client, n: nat, i: ReqID, j: ReqID)
    requires Exact(c, n, i) && CancelledOne(c, d, j) && L.SlotsOK(d) && L.ActiveOK(d)
    ensures Exact(d, n, i)
  {
  }

  lemma CancelExact(c: C.Client, n: nat, i: ReqID, j: ReqID)
    requires Exact(c, n, i)
    ensures Exact(C.DoReceive(c, Cancel(j)), n, i)
  {
    L.StepLimits(c, C.Receive(Cancel(j)));
    CancelShape(c, j);
    CancelledExact(c, C.DoReceive(c, Cancel(j)), n, i, j);
  }

  /** Every client step keeps the account of id i, as long as at most one forward of
      the connection has it. */
  lemma StepExact(c: C.Client, n: nat, i: ReqID, st: C.Step)
    requires Exact(c, n, i) && Alone(c, n, i)
    ensures Exact(C.Do(c, st), n, i)
  {
    match st
    case Receive(f) => if f.Cancel? { CancelExact(c, n, i, f.id); } else { FrameExact(c, n, i, f); }
    case Activate(k) => if C.At(c, k, C.Slotted) { ActivateExact(c, n, i, k); }
    case Deactivate(k) => if C.At(c, k, C.Unwinding) { DeactivateExact(c, n, i, k); }
    case _ => QuietExact(c, n, i, st);
  }

  // ------------------------------------------------------------------ in the system

  lemma AloneInSystem(s: System, c0: C.Client, i: ReqID)
    requires Plumbing(s, c0) && s.srv.adds < ID_SPACE && |c0.forwards| <= |s.cli.forwards|
    ensures Alone(s.cli, |c0.forwards|, i)
  {
    forall k, j | |c0.forwards| <= k < j < |s.cli.forwards|
      ensures !(s.cli.forwards[k].id == i && s.cli.forwards[j].id == i)
    {
      ForwardIdsDistinct(s, c0, k, j);
    }
  }

  lemma ClientMoves(s: System, m: Move)
    ensures var part := ClientPart(s, m);
            Do(s, m).cli == if part == [] then s.cli else C.Do(s.cli, part[0])
  {
    var part := ClientPart(s, m);
    if part != [] {
      assert part == [part[0]];
      ClientExecOne(s.cli, part[0]);
    }
  }

  lemma AddsOnlyGrow(s: System, m: Move)
    ensures s.srv.adds <= Do(s, m).srv.adds
  {
    if m.Srv? || m.ServerWrites? || m.ServerReads? {
      ServerMoveFrame(s, m);
      var part := ServerPart(s, m);
      if part != [] { AddsGrow(s.srv, part[0]); }
    } else {
      assert ServerPart(s, m) == [];
    }
  }

  lemma {:induction false} ExactHolds(c0: C.Client, moves: seq<Move>, i: ReqID)
    requires C.AllFaithful(c0) && Exact(c0, |c0.forwards|, i) && Exec(Init(c0), moves).srv.adds < ID_SPACE
    ensures Exact(Exec(Init(c0), moves).cli, |c0.forwards|, i)
  {
    if moves != [] {
      var before, m := moves[..|moves| - 1], moves[|moves| - 1];
      var s := Exec(Init(c0), before);
      AddsOnlyGrow(s, m);
      ExactHolds(c0, before, i);
      PlumbingHolds(c0, before);
      AloneInSystem(s, c0, i);
      ClientMoves(s, m);
      if ClientPart(s, m) != [] {
        StepExact(s.cli, |c0.forwards|, i, ClientPart(s, m)[0]);
      }
    }
  }

  lemma ClearedExact(earlier: seq<C.Step>, i: ReqID)
    requires Cleared(C.Reconnected(earlier), i)
    ensures Exact(C.Reconnected(earlier), |C.Reconnected(earlier).forwards|, i)
  {
    L.LimitsReachable(earlier);
    L.StepLimits(C.Exec(C.NEW_CLIENT, earlier), C.Reconnect);
  }

  /** Which cancels are lost, exactly.  On a connection with fewer than 2^32 ids, a
      cancel frame for the id of a forward, which no earlier forward that still has to
      clean up has, cancels it if and only if it has registered in `active` and not
      yet cleaned up; and `active` names it if and only if, besides, it was not
      cancelled before. */
  lemma CancelledIffListed(earlier: seq<C.Step>, moves: seq<Move>, k: nat)
    requires Exec(Init(C.Reconnected(earlier)), moves).srv.adds < ID_SPACE
    requires |C.Reconnected(earlier).forwards| <= k < |Exec(Init(C.Reconnected(earlier)), moves).cli.forwards|
    requires Cleared(C.Reconnected(earlier), Exec(Init(C.Reconnected(earlier)), moves).cli.forwards[k].id)
    ensures var c := Exec(Init(C.Reconnected(earlier)), moves).cli;
            var d := C.Do(c, C.Receive(Cancel(c.forwards[k].id)));
            && k < |d.forwards|
            && (Named(c, k) <==> C.Listed(c.forwards[k]) && !c.forwards[k].cancelled)
            && (d.forwards[k].cancelled <==> c.forwards[k].cancelled || C.Listed(c.forwards[k]))
  {
    var c := Exec(Init(C.Reconnected(earlier)), moves).cli;
    C.ReconnectedFaithful(earlier);
    ClearedExact(earlier, c.forwards[k].id);
    ExactHolds(C.Reconnected(earlier), moves, c.forwards[k].id);
    L.CancelReaches(c, c.forwards[k].id, k);
  }

  // ------------------------------------------------------------------ a lost cancel

  // The caller's handler gives up waiting for a first frame, and its cancel is queued.
  ghost function GiveUpSteps(): seq<S.Step> {
    [] + [S.Act(0, S.TimeOut(false))] + [S.Act(0, S.Gate)] + [S.Enqueue(0)]
  }

  // It has answered 504 and queued a cancel.
  ghost predicate GaveUp(s: S.Session, b: S.Caller) {
    && |s.handlers| == 1 && s.handlers[0].caller == b && s.handlers[0].pc.Leaving?
    && s.handlers[0].trace == [S.Refusal(504, S.TIMED_OUT)] && s.handlers[0].up.id == 1 && s.handlers[0].up.cancelled
  }

  // The handler waits; its request_start has been written.
  ghost predicate WaitsOn(s: S.Session, b: S.Caller) {
    && Waits(s, b, 1) && s.handlers[0].pc.AwaitFirst? && s.handlers[0].trace == [] && s.sendQ == [] && s.writing
  }

  lemma TimesOut(s: S.Session, b: S.Caller)
    requires WaitsOn(s, b)
    ensures var t := S.Do(s, S.Act(0, S.TimeOut(false)));
            t == s.(handlers := [s.handlers[0].(pc := S.Sending(Cancel(1), false, S.Verdict(S.GatewayTimeout)))])
  {
  }

  lemma QueuesCancel(s: S.Session, x: S.Handler, b: S.Caller)
    requires s.handlers == [x.(pc := S.Sending(Cancel(1), false, S.Verdict(S.GatewayTimeout)))] && !s.closed
    requires s.sendQ == [] && s.writing && x.caller == b && x.trace == [] && x.up.id == 1
    ensures var t := S.Do(S.Do(s, S.Act(0, S.Gate)), S.Enqueue(0));
            GaveUp(t, b) && t.sendQ == [Cancel(1)] && t.writing
  {
    var s1 := S.Do(s, S.Act(0, S.Gate));
    assert s1.handlers == [x.(pc := S.Sending(Cancel(1), true, S.Verdict(S.GatewayTimeout)))];
    assert [] + [Cancel(1)] == [Cancel(1)];
    assert [] + [S.Refusal(504, S.TIMED_OUT)] == [S.Refusal(504, S.TIMED_OUT)];
  }

  lemma GivesUp(s: System, b: S.Caller) returns (t: System)
    requires WaitsOn(s.srv, b)
    ensures GoesTo(s, t) && GaveUp(t.srv, b) && t.srv.sendQ == [Cancel(1)] && t.srv.writing
    ensures t.cli == s.cli && t.down == s.down
  {
    ServerSnocThree(s.srv, [], S.Act(0, S.TimeOut(false)), S.Act(0, S.Gate), S.Enqueue(0));
    TimesOut(s.srv, b);
    QueuesCancel(S.Do(s.srv, S.Act(0, S.TimeOut(false))), s.srv.handlers[0], b);
    assert ServerOnly(GiveUpSteps());
    ServerRuns(s, GiveUpSteps());
    t := Exec(s, SrvMoves(GiveUpSteps()));
  }

  // A new forward, waiting for a slot.
  ghost predicate Dispatched(s: System, n: nat) {
    && |s.cli.forwards| == n + 1 && s.cli.forwards[n].pc.Waiting? && s.cli.forwards[n].id == 1 &&
         !s.cli.forwards[n].cancelled
    && |s.cli.slots| < C.MAX_CONCURRENT && L.SlotsOK(s.cli) && L.ActiveOK(s.cli) && s.down == []
  }

  // The request is written, read and dispatched.
  lemma Dispatches(c0: C.Client, b: S.Caller) returns (s: System)
    requires b.body.None? && |c0.slots| < C.MAX_CONCURRENT && L.SlotsOK(c0) && L.ActiveOK(c0)
    ensures Reached(c0, s) && WaitsOn(s.srv, b) && Dispatched(s, |c0.forwards|)
  {
    WaitRuns(Init(c0), b, 1);
    var w := Exec(Init(c0), SrvMoves(WaitSteps(b, 1)));
    ReachedStart(c0);
    ReachedFurther(c0, Init(c0), SrvMoves(WaitSteps(b, 1)));
    var f := RequestStart(1, S.HeadOf(b));
    WriteAndRead(w, f);
    ReadsStart(c0, 1, S.HeadOf(b));
    L.StepLimits(c0, C.Receive(f));
    ReachedFurther(c0, w, [ServerWrites(true), ClientReads]);
    s := Exec(w, [ServerWrites(true), ClientReads]);
  }

  // The cancel is written and read, and the forward does not notice.
  lemma CancelMissed(s: System, b: S.Caller, n: nat) returns (t: System)
    requires Dispatched(s, n) && GaveUp(s.srv, b) && s.srv.sendQ == [Cancel(1)] && s.srv.writing
    ensures GoesTo(s, t) && Dispatched(t, n) && GaveUp(t.srv, b) && t.srv.sendQ == []
  {
    WriteAndRead(s, Cancel(1));
    CancelShape(s.cli, 1);
    L.StepLimits(s.cli, C.Receive(Cancel(1)));
    t := Exec(s, [ServerWrites(true), ClientReads]);
  }

  // The forward takes its slot, registers and asks the target.
  lemma AsksTarget(s: System, n: nat) returns (t: System)
    requires Dispatched(s, n)
    ensures GoesTo(s, t) && t.srv == s.srv && t.down == []
    ensures |t.cli.forwards| == n + 1 && t.cli.forwards[n].pc.Asking? && !t.cli.forwards[n].cancelled
  {
    ExecTwo(s, Cli(C.Acquire(n)), Cli(C.Activate(n)));
    SlotQuiet(s, C.Acquire(n));
    AcquireOne(s.cli, n);
    var s1 := Do(s, Cli(C.Acquire(n)));
    SlotQuiet(s1, C.Activate(n));
    ActivateOne(s1.cli, n);
    t := Exec(s, [Cli(C.Acquire(n)), Cli(C.Activate(n))]);
  }

  /** A cancel is lost.  For every bodyless request there is a run in which its handler
      gives up waiting, answers 504 and sends a cancel, and the client reads the cancel
      while the forward waits for a slot: afterwards no frame is left on the way, and
      the forward asks the target all the same. */
  lemma CancelLost(earlier: seq<C.Step>, b: S.Caller)
    requires b.body.None? && |C.Reconnected(earlier).slots| < C.MAX_CONCURRENT
    ensures var c0 := C.Reconnected(earlier);
            exists s :: Reached(c0, s) && GaveUp(s.srv, b) && s.srv.sendQ == [] && s.down == []
                        && |s.cli.forwards| == |c0.forwards| + 1 && s.cli.forwards[|c0.forwards|].pc.Asking?
                        && !s.cli.forwards[|c0.forwards|].cancelled
  {
    var c0 := C.Reconnected(earlier);
    var n := |c0.forwards|;
    L.LimitsReachable(earlier);
    L.StepLimits(C.Exec(C.NEW_CLIENT, earlier), C.Reconnect);
    var s := Dispatches(c0, b);
    var t := GivesUp(s, b);
    ReachedThere(c0, s, t);
    var u := CancelMissed(t, b, n);
    ReachedThere(c0, t, u);
    var v := AsksTarget(u, n);
    ReachedThere(c0, u, v);
  }
}
