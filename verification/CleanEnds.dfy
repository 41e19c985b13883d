/** A clean end to the caller alone does not mean a complete answer: the runs of a
    whole connection that show it, however much of the answer has been delivered. */
module CleanEnds {
  import opened Proto
  import opened Upload
  import opened Relay
  import opened System
  import opened EndToEnd
  import opened Isolation
  import opened Runs
  import S = Server
  import C = Client

  // ------------------------------------------------------------- delivering an answer

  // The response with these pieces of the body.
  ghost function Shown(status: int, headers: Headers, got: seq<Bytes>): seq<S.Event> {
    if got == [] then [S.Relayed(NormalStatus(status), Relayable(headers))]
    else Shown(status, headers, got[..|got| - 1]) + [S.Body(got[|got| - 1])]
  }

  lemma {:induction false} ShownBytes(status: int, headers: Headers, got: seq<Bytes>)
    ensures BodyBytes(Shown(status, headers, got)) == Concat(got)
  {
    if got == [] {
      StatusOnly(Shown(status, headers, []), status, headers);
    } else {
      ShownBytes(status, headers, got[..|got| - 1]);
      BodySnoc(Shown(status, headers, got[..|got| - 1]), S.Body(got[|got| - 1]));
    }
  }

  lemma StatusOnly(trace: seq<S.Event>, status: int, headers: Headers)
    requires trace == [S.Relayed(NormalStatus(status), Relayable(headers))]
    ensures BodyBytes(trace) == []
  {
    assert trace == [] + [trace[0]];
    BodySnoc([], trace[0]);
  }

  // What one read can return.
  predicate Piece(data: Bytes) {
    0 < |data| <= CHUNK_SIZE
  }

  // The handler streams, and has written trace.
  ghost predicate Live(s: S.Session, b: S.Caller, trace: seq<S.Event>) {
    && Waits(s, b, 1) && s.handlers[0].pc.Streaming? && s.handlers[0].consumed != [] && s.handlers[0].trace == trace
  }

  // The forward has sent these pieces and is to read on.
  ghost predicate HasSent(x: C.Forward, got: seq<Bytes>) {
    x.pc.Pumping? && x.id == 1 && !x.eof && x.pieces == got && x.produced == Concat(got)
  }

  ghost predicate Delivered(s: System, b: S.Caller, n: nat, trace: seq<S.Event>, got: seq<Bytes>) {
    && Live(s.srv, b, trace) && s.up == [] && !s.cli.broken && |s.cli.forwards| == n + 1
    && HasSent(s.cli.forwards[n], got)
  }

  lemma TakesChunk(x: S.Handler, no: nat, data: Bytes)
    requires x.pc.Streaming? && x.consumed != []
    ensures S.Take(x.(ch := [ResponseChunk(1, no, Encoded(data))])) ==
            x.(ch := [], consumed := x.consumed + [ResponseChunk(1, no, Encoded(data))],
              trace := x.trace + [S.Body(data)])
  {
  }

  lemma HearsChunk(s: S.Session, b: S.Caller, trace: seq<S.Event>, no: nat, data: Bytes)
    requires Live(s, b, trace)
    ensures Live(HeardBy(s, 0, ResponseChunk(1, no, Encoded(data))), b, trace + [S.Body(data)])
  {
    TakesChunk(s.handlers[0], no, data);
  }

  lemma PumpsPiece(x: C.Forward, got: seq<Bytes>, data: Bytes, end: ReadEnd)
    requires HasSent(x, got) && Piece(data) && (end.Failed? ==> end.err != "")
    ensures C.Sends(x, C.Pump(data, end), false) == [ResponseChunk(1, |got|, Encoded(data))]
    ensures var y := C.MoveForward(x, C.Pump(data, end), false);
            && y.id == 1 && y.produced == Concat(got) + data && y.eof == end.Eof?
            && (end.More? ==> HasSent(y, got + [data])) && (!end.More? ==> y.pc == C.Ending(ErrorOf(end)))
  {
    ConcatSnoc(got, data);
  }

  lemma PumpMoves(c: C.Client, n: nat, m: C.FMove)
    requires n < |c.forwards| && !c.broken
    ensures var d := C.Do(c, C.Move(n, m));
            |d.forwards| == |c.forwards| && !d.broken && d.forwards[n] == C.MoveForward(c.forwards[n], m, false)
  {
  }

  // One piece more, all the way to the caller.
  lemma Delivers(s: System, b: S.Caller, n: nat, trace: seq<S.Event>, got: seq<Bytes>, data: Bytes, end: ReadEnd)
    returns (t: System)
    requires Delivered(s, b, n, trace, got) && Piece(data) && (end.Failed? ==> end.err != "")
    ensures GoesTo(s, t) && Live(t.srv, b, trace + [S.Body(data)]) && t.up == [] && !t.cli.broken &&
            |t.cli.forwards| == n + 1
    ensures t.cli.forwards[n] == C.MoveForward(s.cli.forwards[n], C.Pump(data, end), false)
  {
    PumpsPiece(s.cli.forwards[n], got, data, end);
    PumpMoves(s.cli, n, C.Pump(data, end));
    HearsChunk(s.srv, b, trace, |got|, data);
    SpeakGoes(s, 0, n, C.Pump(data, end), ResponseChunk(1, |got|, Encoded(data)));
    t := Spoken(s, 0, n, C.Pump(data, end), ResponseChunk(1, |got|, Encoded(data)));
  }

  lemma StartedDelivers(s: System, b: S.Caller, n: nat, status: int, headers: Headers)
    requires Started(s, b, n, status, headers)
    ensures Delivered(s, b, n, Shown(status, headers, []), [])
  {
    assert Concat([]) == [];
  }

  lemma DeliversPiece(s: System, b: S.Caller, n: nat, trace: seq<S.Event>, got: seq<Bytes>, data: Bytes)
    returns (t: System)
    requires Delivered(s, b, n, trace, got) && Piece(data)
    ensures GoesTo(s, t) && Delivered(t, b, n, trace + [S.Body(data)], got + [data])
  {
    PumpsPiece(s.cli.forwards[n], got, data, More);
    t := Delivers(s, b, n, trace, got, data, More);
  }

  lemma ShownNext(status: int, headers: Headers, all: seq<Bytes>, m: nat)
    requires m < |all|
    ensures all[..m + 1] == all[..m] + [all[m]]
    ensures Shown(status, headers, all[..m + 1]) == Shown(status, headers, all[..m]) + [S.Body(all[m])]
  {
    assert all[..m + 1][..m] == all[..m];
  }

  lemma DeliversNext(
    c0: C.Client, s: System, b: S.Caller, n: nat, status: int, headers: Headers, all: seq<Bytes>, m: nat)
    returns (t: System)
    requires m < |all| && Reached(c0, s) && Delivered(s, b, n, Shown(status, headers, all[..m]), all[..m]) &&
             Piece(all[m])
    ensures Reached(c0, t) && Delivered(t, b, n, Shown(status, headers, all[..m + 1]), all[..m + 1])
  {
    t := DeliversPiece(s, b, n, Shown(status, headers, all[..m]), all[..m], all[m]);
    ReachedThere(c0, s, t);
    ShownNext(status, headers, all, m);
  }

  lemma {:induction false} DeliversFirst(c0: C.Client, b: S.Caller, status: int, headers: Headers,
    all: seq<Bytes>, m: nat)
    returns (t: System)
    requires m <= |all| && (forall k :: 0 <= k < |all| ==> Piece(all[k]))
    requires b.body.None? && |c0.slots| < C.MAX_CONCURRENT && !c0.broken
    ensures Reached(c0, t) && Delivered(t, b, |c0.forwards|, Shown(status, headers, all[..m]), all[..m])
  {
    if m == 0 {
      t := StartsSomewhere(c0, b, status, headers);
      StartedDelivers(t, b, |c0.forwards|, status, headers);
    } else {
      var s := DeliversFirst(c0, b, status, headers, all, m - 1);
      t := DeliversNext(c0, s, b, |c0.forwards|, status, headers, all, m - 1);
    }
  }

  /** Any pieces of an answer can have reached the caller. */
  lemma DeliversAll(c0: C.Client, b: S.Caller, status: int, headers: Headers, got: seq<Bytes>) returns (t: System)
    requires b.body.None? && |c0.slots| < C.MAX_CONCURRENT && !c0.broken && forall k :: 0 <= k < |got| ==> Piece(got[k])
    ensures Reached(c0, t) && Delivered(t, b, |c0.forwards|, Shown(status, headers, got), got)
  {
    t := DeliversFirst(c0, b, status, headers, got, |got|);
    assert got[..|got|] == got;
  }

  // ---------------------------------------------------------------- a dropped session

  // The caller's handler has returned, having written trace.
  ghost predicate Ended(s: S.Session, b: S.Caller, trace: seq<S.Event>) {
    |s.handlers| == 1 && s.handlers[0].caller == b && s.handlers[0].pc.Gone? && s.handlers[0].trace == trace
  }

  ghost function DropSteps(): seq<S.Step> {
    [] + [S.CallClose] + [S.Swap(0)] + [S.Signal(0)] + [S.Drain(0)] + [S.Act(0, S.SeeMailboxDone)] + [S.Unregister(0)]
  }

  // The first call of close() has got this far.
  ghost predicate Closing(s: S.Session, pc: S.CloserPc) {
    s.closers == [pc] && s.closed == !pc.Called? && s.winner == if pc.Called? then None else Some(0)
  }

  lemma CallsClose(s: S.Session)
    requires s.closers == [] && !s.closed && s.winner.None?
    ensures var t := S.Do(s, S.CallClose); Closing(t, S.Called) && t.handlers == s.handlers && t.pending == s.pending
  {
  }

  lemma Swaps(s: S.Session)
    requires Closing(s, S.Called)
    ensures var t := S.Do(s, S.Swap(0)); Closing(t, S.Won) && t.handlers == s.handlers && t.pending == s.pending
  {
  }

  lemma Signals(s: S.Session)
    requires Closing(s, S.Won)
    ensures var t := S.Do(s, S.Signal(0)); Closing(t, S.Signalled) && t.handlers == s.handlers && t.pending == s.pending
  {
  }

  lemma Drains(s: S.Session, x: S.Handler)
    requires Closing(s, S.Signalled) && s.handlers == [x] && s.pending == map[1 := 0]
    ensures S.Do(s, S.Drain(0)).handlers == [x.(closes := x.closes + 1)]
  {
    assert 0 in s.pending.Values by { assert s.pending[1] == 0; }
  }

  lemma SeesDone(s: S.Session, x: S.Handler)
    requires s.handlers == [x] && x.pc.Streaming? && x.closes > 0
    ensures S.Do(s, S.Act(0, S.SeeMailboxDone)).handlers == [x.(pc := S.Leaving)]
  {
    assert x.trace + [] == x.trace && x.tail + [] == x.tail;
  }

  lemma Leaves(s: S.Session, b: S.Caller, trace: seq<S.Event>)
    requires |s.handlers| == 1 && s.handlers[0].pc.Leaving? && s.handlers[0].caller == b && s.handlers[0].trace == trace
    ensures Ended(S.Do(s, S.Unregister(0)), b, trace)
  {
  }

  lemma DropRuns(s: S.Session, b: S.Caller, trace: seq<S.Event>)
    requires Live(s, b, trace)
    ensures Ended(S.Exec(s, DropSteps()), b, trace)
  {
    var half := [] + [S.CallClose] + [S.Swap(0)] + [S.Signal(0)];
    ServerSnocThree(s, [], S.CallClose, S.Swap(0), S.Signal(0));
    CallsClose(s);
    Swaps(S.Do(s, S.CallClose));
    Signals(S.Do(S.Do(s, S.CallClose), S.Swap(0)));
    DropEnds(s, S.Exec(s, half), b, trace);
    ServerSnocThree(s, half, S.Drain(0), S.Act(0, S.SeeMailboxDone), S.Unregister(0));
  }

  lemma DropEnds(s: S.Session, t: S.Session, b: S.Caller, trace: seq<S.Event>)
    requires Live(s, b, trace) && Closing(t, S.Signalled) && t.handlers == s.handlers && t.pending == s.pending
    ensures Ended(S.Do(S.Do(S.Do(t, S.Drain(0)), S.Act(0, S.SeeMailboxDone)), S.Unregister(0)), b, trace)
  {
    var x := s.handlers[0];
    assert t.handlers == [x];
    Drains(t, x);
    var t1 := S.Do(t, S.Drain(0));
    SeesDone(t1, x.(closes := x.closes + 1));
    Leaves(S.Do(t1, S.Act(0, S.SeeMailboxDone)), b, trace);
  }

  // The session drops; the client goes where it was.
  lemma DropsFrom(s: System, b: S.Caller, trace: seq<S.Event>) returns (t: System)
    requires Live(s.srv, b, trace)
    ensures GoesTo(s, t) && Ended(t.srv, b, trace) && t.cli == s.cli
  {
    DropRuns(s.srv, b, trace);
    assert ServerOnly(DropSteps());
    ServerRuns(s, DropSteps());
    t := Exec(s, SrvMoves(DropSteps()));
  }

  // The target has more, and the client has read it.
  lemma ReadsOn(s: System, b: S.Caller, n: nat, trace: seq<S.Event>, got: seq<Bytes>, data: Bytes, end: ReadEnd)
    returns (t: System)
    requires Delivered(s, b, n, trace, got) && |data| <= CHUNK_SIZE && (end.Failed? ==> end.err != "")
    ensures GoesTo(s, t) && t.srv == s.srv && |t.cli.forwards| == n + 1
    ensures t.cli.forwards[n].produced == Concat(got) + data && t.cli.forwards[n].eof == end.Eof?
  {
    GoesOne(s, Cli(C.Move(n, C.Pump(data, end))));
    ClientOne(s, C.Move(n, C.Pump(data, end)));
    PumpMoves(s.cli, n, C.Pump(data, end));
    t := Do(s, Cli(C.Move(n, C.Pump(data, end))));
  }

  /** A dropped session ends the caller's body like a success, wherever it strikes: for
      every bodyless request, all pieces delivered so far and whatever else the target
      has, with or without its end, there is a run after which the handler has
      returned, the caller has the status and exactly the pieces, no sign of a cut, and
      the target had produced the rest.  So a drop alone tells nothing: with nothing
      left and the end reached the answer is complete, with anything left it is not. */
  lemma DropLooksClean(
    earlier: seq<C.Step>, b: S.Caller, status: int, headers: Headers, got: seq<Bytes>, data: Bytes, end: ReadEnd)
    requires b.body.None? && |C.Reconnected(earlier).slots| < C.MAX_CONCURRENT
    requires (forall k :: 0 <= k < |got| ==> Piece(got[k])) && |data| <= CHUNK_SIZE && (end.Failed? ==> end.err != "")
    ensures var c0 := C.Reconnected(earlier);
            && BodyBytes(Shown(status, headers, got)) == Concat(got)
            && exists s :: Reached(c0, s) && Ended(s.srv, b, Shown(status, headers, got))
                           && |s.cli.forwards| == |c0.forwards| + 1 && s.cli.forwards[|c0.forwards|].eof == end.Eof?
                           && s.cli.forwards[|c0.forwards|].produced == Concat(got) + data
  {
    var c0 := C.Reconnected(earlier);
    var n, trace := |c0.forwards|, Shown(status, headers, got);
    ShownBytes(status, headers, got);
    var s := DeliversAll(c0, b, status, headers, got);
    var t := ReadsOn(s, b, n, trace, got, data, end);
    ReachedThere(c0, s, t);
    var u := DropsFrom(t, b, trace);
    ReachedThere(c0, t, u);
  }

  // -------------------------------------------------------------------- an error end

  function ErrorOf(end: ReadEnd): string {
    if end.Failed? then end.err else ""
  }

  lemma HearsEnd(s: S.Session, b: S.Caller, trace: seq<S.Event>, err: string)
    requires Live(s, b, trace)
    ensures var t := HeardBy(s, 0, ResponseEnd(1, err));
            |t.handlers| == 1 && t.handlers[0].pc.Leaving? && t.handlers[0].caller == b && t.handlers[0].trace == trace
  {
    assert trace + [] == trace;
  }

  lemma SendsEnd(x: C.Forward, err: string)
    requires x.pc == C.Ending(err)
    ensures C.Sends(x, C.SendEnd, false) == [ResponseEnd(x.id, err)]
    ensures var y := C.MoveForward(x, C.SendEnd, false); y.produced == x.produced && y.eof == x.eof
  {
  }

  // Forward k sends its end; the handler takes it and returns.
  lemma EndsBy(s: System, b: S.Caller, k: nat, trace: seq<S.Event>, err: string) returns (t: System)
    requires Live(s.srv, b, trace) && s.up == [] && k < |s.cli.forwards| && !s.cli.broken
    requires s.cli.forwards[k].pc == C.Ending(err) && s.cli.forwards[k].id == 1
    ensures GoesTo(s, t) && Ended(t.srv, b, trace) && t.cli == C.Do(s.cli, C.Move(k, C.SendEnd))
  {
    SendsEnd(s.cli.forwards[k], err);
    SpeakGoes(s, 0, k, C.SendEnd, ResponseEnd(1, err));
    HearsEnd(s.srv, b, trace, err);
    var u := Spoken(s, 0, k, C.SendEnd, ResponseEnd(1, err));
    ServerOne(u, S.Unregister(0));
    Leaves(u.srv, b, trace);
    t := Do(u, Srv(S.Unregister(0)));
    GoesFurther(s, u, Srv(S.Unregister(0)));
  }

  lemma GoesFurther(s: System, t: System, m: Move)
    requires GoesTo(s, t)
    ensures GoesTo(s, Do(t, m))
  {
    var moves :| t == Exec(s, moves);
    SystemSnoc(s, moves, m);
  }

  /** A failed answer looks like a complete one.  For every bodyless request and every
      answer, piece by piece, there is a run in which the target ends it with its last
      piece and one in which it fails there, with any error, and the caller sees the
      same: status, pieces, clean end.  Only the client knows whether the target got
      to end of file. */
  lemma ErrorEndLooksComplete(
    earlier: seq<C.Step>, b: S.Caller, status: int, headers: Headers, got: seq<Bytes>, data: Bytes, end: ReadEnd)
    requires b.body.None? && |C.Reconnected(earlier).slots| < C.MAX_CONCURRENT
    requires (forall k :: 0 <= k < |got| ==> Piece(got[k])) && Piece(data) && !end.More? && (end.Failed? ==>
             end.err != "")
    ensures var c0 := C.Reconnected(earlier);
            exists s :: Reached(c0, s) && Ended(s.srv, b, Shown(status, headers, got) + [S.Body(data)])
                        && |s.cli.forwards| == |c0.forwards| + 1 && s.cli.forwards[|c0.forwards|].eof == end.Eof?
                        && s.cli.forwards[|c0.forwards|].produced == Concat(got) + data
  {
    var c0 := C.Reconnected(earlier);
    var n, trace := |c0.forwards|, Shown(status, headers, got);
    var s := DeliversAll(c0, b, status, headers, got);
    PumpsPiece(s.cli.forwards[n], got, data, end);
    var t := Delivers(s, b, n, trace, got, data, end);
    ReachedThere(c0, s, t);
    SendsEnd(t.cli.forwards[n], ErrorOf(end));
    PumpMoves(t.cli, n, C.SendEnd);
    var u := EndsBy(t, b, n, trace + [S.Body(data)], ErrorOf(end));
    ReachedThere(c0, t, u);
  }

  // ---------------------------------------------------- an error end from long before

  // An earlier connection: a request under id 1 whose answer failed in the middle,
  // with its response_end still to be sent when the connection was lost.
  ghost function FailedHistory(head: Head, err: string): seq<C.Step> {
    [] + [C.Receive(RequestStart(1, head))] + [C.Acquire(0)] + [C.Activate(0)] +
    [C.Move(0, C.Answer(200, map[]))] + [C.Move(0, C.SendStart)] + [C.Move(0, C.Pump([], Failed(err)))]
  }

  lemma ClientSnoc(c: C.Client, steps: seq<C.Step>, st: C.Step)
    ensures C.Exec(c, steps + [st]) == C.Do(C.Exec(c, steps), st)
  {
    assert (steps + [st])[..|steps|] == steps;
  }

  lemma ClientThree(c: C.Client, steps: seq<C.Step>, p: C.Step, q: C.Step, r: C.Step)
    ensures C.Exec(c, steps + [p] + [q] + [r]) == C.Do(C.Do(C.Do(C.Exec(c, steps), p), q), r)
  {
    ClientSnoc(c, steps, p);
    ClientSnoc(c, steps + [p], q);
    ClientSnoc(c, steps + [p] + [q], r);
  }

  lemma FailedTakesSlot(head: Head)
    requires !head.hasBody
    ensures var c := C.Do(C.Do(C.Do(C.NEW_CLIENT, C.Receive(RequestStart(1, head))), C.Acquire(0)), C.Activate(0));
            c.forwards == [C.NewForward(Dispatch(1, head, [])).(pc := C.Asking)] && c.slots == {0} && !c.broken
  {
    ReadsStart(C.NEW_CLIENT, 1, head);
    var c1 := C.Do(C.NEW_CLIENT, C.Receive(RequestStart(1, head)));
    AcquireOne(c1, 0);
    ActivateOne(C.Do(c1, C.Acquire(0)), 0);
  }

  lemma FailedAnswers(c: C.Client, err: string)
    requires |c.forwards| == 1 && c.forwards[0].pc.Asking? && !c.broken && err != ""
    ensures var d := C.Do(C.Do(C.Do(c, C.Move(0, C.Answer(200, map[]))), C.Move(0, C.SendStart)), C.Move(0,
            C.Pump([], Failed(err))));
            |d.forwards| == 1 && d.forwards[0].pc == C.Ending(err) && d.forwards[0].id == c.forwards[0].id &&
              d.slots == c.slots
  {
    AnswerOne(c, 0, 200, map[]);
  }

  lemma FailedHalf(head: Head)
    requires !head.hasBody
    ensures var c := C.Exec(C.NEW_CLIENT, [] + [C.Receive(RequestStart(1, head))] + [C.Acquire(0)] + [C.Activate(0)]);
            c.forwards == [C.NewForward(Dispatch(1, head, [])).(pc := C.Asking)] && c.slots == {0} && !c.broken
  {
    ClientThree(C.NEW_CLIENT, [], C.Receive(RequestStart(1, head)), C.Acquire(0), C.Activate(0));
    FailedTakesSlot(head);
  }

  lemma FailedLater(c: C.Client, steps: seq<C.Step>, err: string)
    requires |C.Exec(c, steps).forwards| == 1 && C.Exec(c, steps).forwards[0].pc.Asking? && !C.Exec(c,
             steps).broken && err != ""
    ensures var d := C.Exec(c, steps + [C.Move(0, C.Answer(200, map[]))] + [C.Move(0, C.SendStart)] + [C.Move(0,
            C.Pump([], Failed(err)))]);
            && |d.forwards| == 1 && d.forwards[0].pc == C.Ending(err)
            && d.forwards[0].id == C.Exec(c, steps).forwards[0].id && d.slots == C.Exec(c, steps).slots
  {
    ClientThree(c, steps, C.Move(0, C.Answer(200, map[])), C.Move(0, C.SendStart), C.Move(0, C.Pump([], Failed(err))));
    FailedAnswers(C.Exec(c, steps), err);
  }

  lemma FailedLeft(head: Head, err: string)
    requires !head.hasBody && err != ""
    ensures var c := C.Reconnected(FailedHistory(head, err));
            |c.forwards| == 1 && c.forwards[0].pc == C.Ending(err) && c.forwards[0].id == 1 && c.slots == {0} &&
              !c.broken
  {
    FailedHalf(head);
    FailedLater(C.NEW_CLIENT, [] + [C.Receive(RequestStart(1, head))] + [C.Acquire(0)] + [C.Activate(0)], err);
  }

  lemma OwnUntouched(c: C.Client, m: C.FMove)
    requires |c.forwards| == 2
    ensures var d := C.Do(c, C.Move(0, m));
            |d.forwards| == 2 && d.forwards[1] == c.forwards[1]
  {
  }

  lemma OwnPumps(c: C.Client, b: S.Caller, status: int, headers: Headers, data: Bytes)
    requires |c.forwards| == 2 && c.forwards[1] == Answering(b, 1, status, headers) && Piece(data)
    ensures var d := C.Do(c, C.Move(1, C.Pump(data, More))); |d.forwards| == 2 && d.forwards[1].produced == data
  {
    assert [] + data == data;
  }

  // The leftover's end reaches the handler, which returns; the own forward goes on.
  lemma StrayEnds(c0: C.Client, s: System, b: S.Caller, status: int, headers: Headers, data: Bytes, err: string)
    returns (u: System)
    requires Reached(c0, s) && Started(s, b, 1, status, headers) && Piece(data)
    requires s.cli.forwards[0].pc == C.Ending(err) && s.cli.forwards[0].id == 1
    ensures Reached(c0, u) && Ended(u.srv, b, Shown(status, headers, []))
    ensures |u.cli.forwards| == 2 && u.cli.forwards[1].produced == data
  {
    StartedDelivers(s, b, 1, status, headers);
    var t := EndsBy(s, b, 0, Shown(status, headers, []), err);
    ReachedThere(c0, s, t);
    OwnUntouched(s.cli, C.SendEnd);
    OwnPumps(t.cli, b, status, headers, data);
    var m := C.Move(1, C.Pump(data, More));
    ClientOne(t, m);
    GoesOne(t, Cli(m));
    u := Do(t, Cli(m));
    ReachedThere(c0, t, u);
  }

  lemma StrayFrom(c0: C.Client, err: string, b: S.Caller, status: int, headers: Headers, data: Bytes)
    returns (u: System)
    requires |c0.forwards| == 1 && c0.forwards[0].pc == C.Ending(err) && c0.forwards[0].id == 1
    requires |c0.slots| < C.MAX_CONCURRENT && !c0.broken && b.body.None? && Piece(data)
    ensures Reached(c0, u) && Ended(u.srv, b, Shown(status, headers, []))
    ensures |u.cli.forwards| == 2 && u.cli.forwards[1].produced == data
  {
    var s := StartsSomewhere(c0, b, status, headers);
    assert s.cli.forwards[0] == s.cli.forwards[..1][0];
    u := StrayEnds(c0, s, b, status, headers, data, err);
  }

  /** An error end that looks clean while the target goes on: after an earlier
      connection left the end of a failed answer to send, a caller of the new one can
      have its status, no body, a returned handler and no sign of a cut, and its own
      target's answer is under way.  Such a leftover is tame: what the caller has seen
      is still an initial part of its own answer. */
  lemma ErrorEndLooksClean(head: Head, err: string, b: S.Caller, status: int, headers: Headers, data: Bytes)
    requires !head.hasBody && err != "" && b.body.None? && Piece(data)
    ensures var c0 := C.Reconnected(FailedHistory(head, err));
            && TameLeft(c0) && BodyBytes(Shown(status, headers, [])) == []
            && exists s :: Reached(c0, s) && Ended(s.srv, b, Shown(status, headers, []))
                           && |s.cli.forwards| == 2 && s.cli.forwards[1].produced == data
  {
    var c0 := C.Reconnected(FailedHistory(head, err));
    FailedLeft(head, err);
    StatusOnly(Shown(status, headers, []), status, headers);
    var u := StrayFrom(c0, err, b, status, headers, data);
  }
}
