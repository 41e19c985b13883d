/** One connection: a new server session and a client, joined by two FIFO wires.
    The client comes with whatever earlier connections left in it: c0. */
module System {
  import opened Proto
  import opened Upload
  import opened ServerSafety
  import opened Mailboxes
  import opened SentUploads
  import S = Server
  import C = Client

  datatype System = System(
    srv: S.Session, cli: C.Client,
    down: seq<Frame>, up: seq<Frame>,             // frames on the wires
    received: seq<Frame>, emitted: seq<Frame>,    // read by the client, written by it
    points: seq<nat>)                             // which frames read made it start a forward

  datatype Move =
    | Srv(ss: S.Step)          // any step of the session but reading and writing the wires
    | ServerWrites(ok: bool)
    | ServerReads
    | Cli(cs: C.Step)          // any step of the client but reading, and no reconnect
    | ClientReads

  ghost function Init(c0: C.Client): System {
    System(S.NEW_SESSION, c0, [], [], [], [], [])
  }

  // The server step a move amounts to, if any.
  ghost function ServerPart(s: System, m: Move): seq<S.Step> {
    match m
    case Srv(st) => if st.ReadFrame? || st.Write? then [] else [st]
    case ServerWrites(ok) => [S.Write(ok)]
    case ServerReads => if s.srv.reader.Idle? && s.up != [] then [S.ReadFrame(s.up[0])] else []
    case _ => []
  }

  ghost function ClientPart(s: System, m: Move): seq<C.Step> {
    match m
    case Cli(st) => if st.Receive? || st.Reconnect? then [] else [st]
    case ClientReads => if s.down != [] then [C.Receive(s.down[0])] else []
    case _ => []
  }

  ghost function Do(s: System, m: Move): System {
    var srv' := S.Exec(s.srv, ServerPart(s, m));
    var cli' := C.Exec(s.cli, ClientPart(s, m));
    match m
    case Srv(_) => s.(srv := srv')
    case ServerWrites(ok) =>
      s.(srv := srv', down := if ok && s.srv.writing && s.srv.sendQ != [] then s.down + [s.srv.sendQ[0]] else s.down)
    case ServerReads => s.(srv := srv', up := if ServerPart(s, m) != [] then s.up[1..] else s.up)
    case Cli(st) =>
      var more := if ClientPart(s, m) != [] then C.Emit(s.cli, st) else [];
      s.(cli := cli', up := s.up + more, emitted := s.emitted + more)
    case ClientReads =>
      if s.down != []
      then s.(cli := cli', down := s.down[1..], received := s.received + [s.down[0]],
              points := if |cli'.forwards| > |s.cli.forwards| then s.points + [|s.received|] else s.points)
      else s
  }

  ghost function Exec(s: System, moves: seq<Move>): System {
    if moves == [] then s else Do(Exec(s, moves[..|moves| - 1]), moves[|moves| - 1])
  }

  // ------------------------------------------------- the server inside the system

  // The schedule of the session alone within a schedule of the system.
  ghost function ServerSteps(s: System, moves: seq<Move>): seq<S.Step> {
    if moves == [] then []
    else
      var before := moves[..|moves| - 1];
      ServerSteps(s, before) + ServerPart(Exec(s, before), moves[|moves| - 1])
  }

  lemma ServerExecSnoc(s: S.Session, steps: seq<S.Step>, more: seq<S.Step>)
    requires |more| <= 1
    ensures S.Exec(s, steps + more) == S.Exec(S.Exec(s, steps), more)
  {
    if more == [] {
      assert steps + more == steps;
    } else {
      assert (steps + more)[..|steps|] == steps;
      assert more[..0] == [];
    }
  }

  lemma ServerExecOne(s: S.Session, st: S.Step)
    ensures S.Exec(s, [st]) == S.Do(s, st)
  {
    assert [st][..0] == [];
  }

  lemma ServerDo(s: System, m: Move)
    ensures |ServerPart(s, m)| <= 1 && Do(s, m).srv == S.Exec(s.srv, ServerPart(s, m))
  {
  }

  lemma {:induction false} ServerInside(s: System, moves: seq<Move>)
    ensures Exec(s, moves).srv == S.Exec(s.srv, ServerSteps(s, moves))
  {
    if moves != [] {
      var before := moves[..|moves| - 1];
      ServerInside(s, before);
      ServerDo(Exec(s, before), moves[|moves| - 1]);
      ServerExecSnoc(s.srv, ServerSteps(s, before), ServerPart(Exec(s, before), moves[|moves| - 1]));
    }
  }

  // Whatever is proved of the session alone holds of the session in the system.
  ghost predicate ServerFacts(s: S.Session) {
    Always(s) && SentOK(s) && (s.adds < ID_SPACE ==> OpenOK(s) && FreeOK(s) && HeardOK(s))
  }

  lemma ServerFactsHold(c0: C.Client, moves: seq<Move>)
    ensures ServerFacts(Exec(Init(c0), moves).srv)
  {
    var steps := ServerSteps(Init(c0), moves);
    ServerInside(Init(c0), moves);
    AlwaysReachable(steps);
    SentReachable(steps);
    if S.Exec(S.NEW_SESSION, steps).adds < ID_SPACE {
      FewAddsPaced(steps);
      OpenReachable(steps);
      HeardReachable(steps);
    }
  }

  // -------------------------------------------------------------- the two wires

  /** Both wires are FIFO: nothing is reordered, duplicated or invented. */
  ghost predicate WiresOK(s: System) {
    && s.received + s.down <= s.srv.sent
    && (s.srv.writing ==> s.received + s.down + s.srv.sendQ == s.srv.sent)
    && s.srv.heard + s.up == s.emitted
  }

  lemma SendStepWires(s: S.Session, st: S.Step)
    requires st.Enqueue? || st.SendControl?
    ensures var t := S.Do(s, st);
            && t.heard == s.heard && t.writing == s.writing
            && ((t.sent == s.sent && t.sendQ == s.sendQ) ||
                exists f :: t.sent == s.sent + [f] && t.sendQ == s.sendQ + [f])
  {
  }

  // Neither queue nor wire.
  ghost predicate SameWires(s: S.Session, t: S.Session) {
    t.heard == s.heard && t.writing == s.writing && t.sent == s.sent && t.sendQ == s.sendQ
  }

  lemma BookStepWires(s: S.Session, st: S.Step)
    requires st.Arrive? || st.AddID? || st.CheckID? || st.Register? || st.Unregister?
    ensures SameWires(s, S.Do(s, st))
  {
  }

  lemma CloserStepWires(s: S.Session, st: S.Step)
    requires st.CallClose? || st.Swap? || st.Signal? || st.Drain? || st.Detach?
    ensures SameWires(s, S.Do(s, st))
  {
  }

  lemma MailStepWires(s: S.Session, st: S.Step)
    requires st.Act? || st.Deliver? || st.DropBlocked? || st.StopReading?
    ensures SameWires(s, S.Do(s, st))
  {
  }

  lemma ServerStepWires(s: S.Session, st: S.Step)
    requires !st.ReadFrame? && !st.Write?
    ensures var t := S.Do(s, st);
            && t.heard == s.heard && t.writing == s.writing
            && ((t.sent == s.sent && t.sendQ == s.sendQ) ||
                exists f :: t.sent == s.sent + [f] && t.sendQ == s.sendQ + [f])
  {
    if st.Enqueue? || st.SendControl? {
      SendStepWires(s, st);
    } else {
      match st
      case Act(_, _) => MailStepWires(s, st);
      case Deliver => MailStepWires(s, st);
      case DropBlocked => MailStepWires(s, st);
      case StopReading => MailStepWires(s, st);
      case Arrive(_) => BookStepWires(s, st);
      case AddID(_) => BookStepWires(s, st);
      case CheckID(_) => BookStepWires(s, st);
      case Register(_) => BookStepWires(s, st);
      case Unregister(_) => BookStepWires(s, st);
      case _ => CloserStepWires(s, st);
    }
  }

  lemma SrvWires(s: System, st: S.Step)
    requires WiresOK(s)
    ensures WiresOK(Do(s, Srv(st)))
  {
    var t := Do(s, Srv(st));
    if ServerPart(s, Srv(st)) != [] {
      ServerExecOne(s.srv, st);
      ServerStepWires(s.srv, st);
      if t.srv.sent != s.srv.sent {
        var f :| t.srv.sent == s.srv.sent + [f] && t.srv.sendQ == s.srv.sendQ + [f];
        assert s.received + s.down + (s.srv.sendQ + [f]) == s.received + s.down + s.srv.sendQ + [f];
      }
    }
  }

  lemma WriteWires(s: System, ok: bool)
    requires WiresOK(s)
    ensures WiresOK(Do(s, ServerWrites(ok)))
  {
    var st := S.Write(ok);
    ServerExecOne(s.srv, st);
    if s.srv.writing && s.srv.sendQ != [] {
      var f := s.srv.sendQ[0];
      assert s.srv.sendQ == [f] + s.srv.sendQ[1..];
      assert s.received + s.down + s.srv.sendQ == s.received + (s.down + [f]) + s.srv.sendQ[1..];
    }
  }

  lemma ServerReadWires(s: System)
    requires WiresOK(s)
    requires forall f :: f in s.up ==> IsReply(f) || f.Control?
    ensures WiresOK(Do(s, ServerReads))
  {
    if ServerPart(s, ServerReads) != [] {
      var st := S.ReadFrame(s.up[0]);
      ServerExecOne(s.srv, st);
      assert s.up[0] in s.up;
      assert s.srv.heard + s.up == s.srv.heard + [s.up[0]] + s.up[1..];
    }
  }

  lemma ClientWires(s: System, m: Move)
    requires WiresOK(s) && (m.Cli? || m.ClientReads?)
    ensures WiresOK(Do(s, m))
  {
    var t := Do(s, m);
    if m.ClientReads? && s.down != [] {
      assert s.received + s.down == s.received + [s.down[0]] + s.down[1..];
    } else if m.Cli? && ClientPart(s, m) != [] {
      var more := C.Emit(s.cli, m.cs);
      assert s.srv.heard + (s.up + more) == s.srv.heard + s.up + more;
    }
  }

  ghost predicate RepliesOnly(s: System) {
    forall f :: f in s.up ==> IsReply(f) || f.Control?
  }

  lemma StepWires(s: System, m: Move)
    requires WiresOK(s) && RepliesOnly(s)
    ensures WiresOK(Do(s, m)) && RepliesOnly(Do(s, m))
  {
    match m
    case Srv(st) => SrvWires(s, st);
    case ServerWrites(ok) => WriteWires(s, ok);
    case ServerReads => ServerReadWires(s);
    case _ => ClientWires(s, m);
  }

  // ------------------------------------------------------------ the client inside

  ghost predicate TableOK(s: System, c0: C.Client) {
    && C.TableOf(s.cli) == TableRun(C.TableOf(c0), s.received)
    && C.Dispatched(c0) <= C.Dispatched(s.cli)
    && C.AllFaithful(s.cli)
  }

  lemma ClientExecOne(c: C.Client, st: C.Step)
    ensures C.Exec(c, [st]) == C.Do(c, st)
  {
    assert [st][..0] == [];
  }

  lemma StepTable(s: System, c0: C.Client, m: Move)
    requires TableOK(s, c0)
    ensures TableOK(Do(s, m), c0)
  {
    var part := ClientPart(s, m);
    if part != [] {
      ClientExecOne(s.cli, part[0]);
      C.StepFaithful(s.cli, part[0]);
      if m.ClientReads? {
        ReceiveTable(s.cli, s.down[0]);
        assert (s.received + [s.down[0]])[..|s.received|] == s.received;
      } else {
        QuietTable(s.cli, part[0]);
      }
    }
  }

  lemma ReceiveTable(c: C.Client, f: Frame)
    ensures C.Dispatched(c) <= C.Dispatched(C.DoReceive(c, f))
    ensures C.TableOf(C.DoReceive(c, f)) == TableStep(C.TableOf(c), f)
  {
    var t := TableStep(C.TableOf(c), f);
    var d := C.DoReceive(c, f);
    if !f.Control? {
      var out := StepSlot(SlotOf(C.TableOf(c), f.id), f).out;
      assert out == [] || out == [out[0]];
    }
    assert C.Dispatched(d) == t.dispatched;
  }

  lemma QuietTable(c: C.Client, st: C.Step)
    requires !st.Receive?
    ensures C.TableOf(C.Do(c, st)) == C.TableOf(c)
  {
    C.StepKeepsRequests(c, st);
    assert C.Dispatched(C.Do(c, st)) == C.Dispatched(c);
  }

  // ----------------------------------------------------------------- where forwards start

  // Frame p of those received is the one that made the client start forward n.
  ghost predicate StartsAt(s: System, c0: C.Client, p: nat, n: nat) {
    && p < |s.received|
    && |TableRun(C.TableOf(c0), s.received[..p]).dispatched| == n
    && |TableRun(C.TableOf(c0), s.received[..p + 1]).dispatched| == n + 1
  }

  ghost predicate PointsOK(s: System, c0: C.Client) {
    && |c0.forwards| + |s.points| == |s.cli.forwards|
    && forall j :: 0 <= j < |s.points| ==> StartsAt(s, c0, s.points[j], |c0.forwards| + j)
  }

  lemma ReadPoints(s: System, c0: C.Client)
    requires TableOK(s, c0) && PointsOK(s, c0) && s.down != []
    ensures PointsOK(Do(s, ClientReads), c0)
  {
    var t := Do(s, ClientReads);
    var n := |s.received|;
    StepTable(s, c0, ClientReads);
    forall j | 0 <= j < |s.points| ensures StartsAt(t, c0, s.points[j], |c0.forwards| + j) {
      assert StartsAt(s, c0, s.points[j], |c0.forwards| + j);
      assert t.received[..s.points[j]] == s.received[..s.points[j]];
      assert t.received[..s.points[j] + 1] == s.received[..s.points[j] + 1];
    }
    ClientExecOne(s.cli, C.Receive(s.down[0]));
    ReceiveGrows(s.cli, s.down[0]);
    assert t.received[..n] == s.received && t.received[..n + 1] == t.received;
    assert |C.Dispatched(s.cli)| == |s.cli.forwards| && |C.Dispatched(t.cli)| == |t.cli.forwards|;
  }

  lemma ReceiveGrows(c: C.Client, f: Frame)
    ensures |c.forwards| <= |C.DoReceive(c, f).forwards| <= |c.forwards| + 1
  {
  }

  lemma StepPoints(s: System, c0: C.Client, m: Move)
    requires TableOK(s, c0) && PointsOK(s, c0)
    ensures PointsOK(Do(s, m), c0)
  {
    if m.ClientReads? && s.down != [] {
      ReadPoints(s, c0);
    } else {
      KeepsPoints(s, m);
      var t := Do(s, m);
      forall j | 0 <= j < |t.points| ensures StartsAt(t, c0, t.points[j], |c0.forwards| + j) {
        assert StartsAt(s, c0, s.points[j], |c0.forwards| + j);
      }
    }
  }

  lemma KeepsPoints(s: System, m: Move)
    requires m.ClientReads? ==> s.down == []
    ensures var t := Do(s, m);
            t.points == s.points && t.received == s.received && |t.cli.forwards| == |s.cli.forwards|
  {
    if m.Cli? && ClientPart(s, m) != [] {
      ClientExecOne(s.cli, m.cs);
      C.StepKeepsRequests(s.cli, m.cs);
    }
  }

  lemma {:induction false} PointsHold(c0: C.Client, moves: seq<Move>)
    requires C.AllFaithful(c0)
    ensures PointsOK(Exec(Init(c0), moves), c0)
  {
    if moves != [] {
      var before := moves[..|moves| - 1];
      PointsHold(c0, before);
      PlumbingHolds(c0, before);
      StepPoints(Exec(Init(c0), before), c0, moves[|moves| - 1]);
    }
  }

  ghost predicate Plumbing(s: System, c0: C.Client) {
    WiresOK(s) && RepliesOnly(s) && TableOK(s, c0) && ServerFacts(s.srv)
  }

  lemma {:induction false} PlumbingHolds(c0: C.Client, moves: seq<Move>)
    requires C.AllFaithful(c0)
    ensures Plumbing(Exec(Init(c0), moves), c0)
  {
    ServerFactsHold(c0, moves);
    if moves != [] {
      var before := moves[..|moves| - 1];
      PlumbingHolds(c0, before);
      StepWires(Exec(Init(c0), before), moves[|moves| - 1]);
      StepTable(Exec(Init(c0), before), c0, moves[|moves| - 1]);
    }
  }
}
