/** Schedules of a connection put together from parts: a caller waits under a chosen
    id, a forward answers, the handler hears one frame. */
module Runs {
  import opened Proto
  import opened Fold
  import opened Upload
  import opened Relay
  import opened System
  import S = Server
  import C = Client

  lemma SystemSnoc(s: System, moves: seq<Move>, m: Move)
    ensures Exec(s, moves + [m]) == Do(Exec(s, moves), m)
  {
    assert (moves + [m])[..|moves|] == moves;
  }

  lemma {:induction false} ExecIsRun(next: (System, Move) -> System, s: System, moves: seq<Move>)
    requires forall t: System, m: Move :: next(t, m) == Do(t, m)
    ensures Exec(s, moves) == Run(next, s, moves)
  {
    if moves != [] {
      ExecIsRun(next, s, moves[..|moves| - 1]);
    }
  }

  lemma ExecAppend(s: System, a: seq<Move>, b: seq<Move>)
    ensures Exec(s, a + b) == Exec(Exec(s, a), b)
  {
    var next := (t: System, m: Move) => Do(t, m);
    var exec := (t: System, moves: seq<Move>) => Exec(t, moves);
    forall t: System, moves: seq<Move> ensures exec(t, moves) == Run(next, t, moves) {
      ExecIsRun(next, t, moves);
    }
    SameAppend(exec, next, s, a, b);
  }

  lemma ExecOne(s: System, a: Move)
    ensures Exec(s, [a]) == Do(s, a)
  {
    assert [a] == [] + [a];
    SystemSnoc(s, [], a);
  }

  lemma ExecTwo(s: System, a: Move, b: Move)
    ensures Exec(s, [a, b]) == Do(Do(s, a), b)
  {
    assert [a, b] == ([] + [a]) + [b];
    SystemSnoc(s, [], a);
    SystemSnoc(s, [] + [a], b);
  }

  lemma ExecThree(s: System, a: Move, b: Move, c: Move)
    ensures Exec(s, [a, b, c]) == Do(Do(Do(s, a), b), c)
  {
    assert [a, b, c] == [a, b] + [c];
    ExecTwo(s, a, b);
    SystemSnoc(s, [a, b], c);
  }

  lemma ServerOne(s: System, st: S.Step)
    requires !st.ReadFrame? && !st.Write?
    ensures Do(s, Srv(st)) == s.(srv := S.Do(s.srv, st))
  {
    ServerExecOne(s.srv, st);
  }

  lemma ClientOne(s: System, st: C.Step)
    requires !st.Receive? && !st.Reconnect?
    ensures Do(s, Cli(st)) == s.(cli := C.Do(s.cli, st), up := s.up + C.Emit(s.cli, st),
            emitted := s.emitted + C.Emit(s.cli, st))
  {
    ClientExecOne(s.cli, st);
  }

  // ------------------------------------------------------ the session's own schedules

  predicate ServerOnly(steps: seq<S.Step>) {
    forall k :: 0 <= k < |steps| ==> !steps[k].ReadFrame? && !steps[k].Write?
  }

  ghost function SrvMoves(steps: seq<S.Step>): seq<Move> {
    seq(|steps|, k requires 0 <= k < |steps| => Srv(steps[k]))
  }

  lemma {:induction false} ServerRuns(s: System, steps: seq<S.Step>)
    requires ServerOnly(steps)
    ensures Exec(s, SrvMoves(steps)) == s.(srv := S.Exec(s.srv, steps))
  {
    if steps != [] {
      var n := |steps| - 1;
      ServerRuns(s, steps[..n]);
      assert SrvMoves(steps) == SrvMoves(steps[..n]) + [Srv(steps[n])];
      SystemSnoc(s, SrvMoves(steps[..n]), Srv(steps[n]));
      ServerOne(s.(srv := S.Exec(s.srv, steps[..n])), steps[n]);
    }
  }

  lemma ServerSnoc(s: S.Session, steps: seq<S.Step>, st: S.Step)
    ensures S.Exec(s, steps + [st]) == S.Do(S.Exec(s, steps), st)
  {
    assert (steps + [st])[..|steps|] == steps;
  }

  lemma ServerSnocThree(s: S.Session, steps: seq<S.Step>, p: S.Step, q: S.Step, r: S.Step)
    ensures S.Exec(s, steps + [p] + [q] + [r]) == S.Do(S.Do(S.Do(S.Exec(s, steps), p), q), r)
  {
    ServerSnoc(s, steps, p);
    ServerSnoc(s, steps + [p], q);
    ServerSnoc(s, steps + [p] + [q], r);
  }

  // -------------------------------------- client schedules against an idle session

  predicate ClientOnly(steps: seq<C.Step>) {
    forall k :: 0 <= k < |steps| ==> !steps[k].Receive? && !steps[k].Reconnect?
  }

  // A session that has done nothing but read frames of unknown ids.
  ghost predicate Untouched(s: System, c: C.Client) {
    s.srv == S.NEW_SESSION.(heard := s.srv.heard) && s.cli == c && s.up == [] && s.down == []
  }

  // Each client step, and the session reads what it sends.
  ghost function Rounds(steps: seq<C.Step>): seq<Move> {
    if steps == [] then [] else Rounds(steps[..|steps| - 1]) + [Cli(steps[|steps| - 1]), ServerReads]
  }

  lemma EmitsReplies(c: C.Client, st: C.Step)
    ensures var fs := C.Emit(c, st);
            fs == [] || (fs == [fs[0]] && (IsReply(fs[0]) || fs[0].Control?))
  {
  }

  lemma Round(s: System, c: C.Client, st: C.Step)
    requires Untouched(s, c) && !st.Receive? && !st.Reconnect?
    ensures Untouched(Do(Do(s, Cli(st)), ServerReads), C.Do(c, st))
  {
    EmitsReplies(c, st);
    ClientOne(s, st);
    var t := Do(s, Cli(st));
    if t.up != [] {
      ServerExecOne(t.srv, S.ReadFrame(t.up[0]));
    }
  }

  lemma {:induction false} RoundsRun(s: System, c: C.Client, steps: seq<C.Step>)
    requires Untouched(s, c) && ClientOnly(steps)
    ensures Untouched(Exec(s, Rounds(steps)), C.Exec(c, steps))
  {
    if steps != [] {
      var n := |steps| - 1;
      RoundsRun(s, c, steps[..n]);
      var pair := [Cli(steps[n]), ServerReads];
      ExecAppend(s, Rounds(steps[..n]), pair);
      ExecTwo(Exec(s, Rounds(steps[..n])), pair[0], pair[1]);
      Round(Exec(s, Rounds(steps[..n])), C.Exec(c, steps[..n]), steps[n]);
    }
  }

  // ------------------------------------------- a caller waiting under a chosen id

  predicate Routed(b: S.Caller) {
    ValidTunnelID(SplitTunnelPath(b.path).0)
  }

  ghost function Chooser(b: S.Caller, id: ReqID): S.Handler {
    S.NewHandler(b).(pc := S.Registering, tick := id, up := Sent(id, S.HeadOf(b), false, [], false, false))
  }

  ghost function Choosers(b: S.Caller, n: nat): seq<S.Handler>
    requires n < ID_SPACE
  {
    seq(n, k requires 0 <= k < n => Chooser(b, k + 1))
  }

  ghost function AllocRound(b: S.Caller, k: nat): seq<S.Step> {
    [S.Arrive(b), S.AddID(k), S.CheckID(k)]
  }

  ghost function AllocRounds(b: S.Caller): nat -> seq<S.Step> {
    (k: nat) => AllocRound(b, k)
  }

  ghost function AllocSteps(b: S.Caller, n: nat): seq<S.Step> {
    Flat(AllocRounds(b), n)
  }

  ghost function Allocated(heard: seq<Frame>, b: S.Caller, n: nat): S.Session
    requires n < ID_SPACE
  {
    S.NEW_SESSION.(heard := heard, nextID := n, adds := n, handlers := Choosers(b, n))
  }

  lemma AllocOne(heard: seq<Frame>, b: S.Caller, n: nat)
    requires n + 1 < ID_SPACE
    ensures S.Do(S.Do(S.Do(Allocated(heard, b, n), S.Arrive(b)), S.AddID(n)), S.CheckID(n)) == Allocated(heard, b,
            n + 1)
  {
    var s1 := S.Do(Allocated(heard, b, n), S.Arrive(b));
    assert s1.handlers == Choosers(b, n) + [S.NewHandler(b)];
    var s2 := S.Do(s1, S.AddID(n));
    assert s2.nextID == n + 1 && s2.adds == n + 1;
    var s3 := S.Do(s2, S.CheckID(n));
    assert s3.handlers == Choosers(b, n + 1);
  }

  lemma {:induction false} FlatServerOnly(rounds: nat -> seq<S.Step>, n: nat)
    requires forall k: nat :: ServerOnly(rounds(k))
    ensures ServerOnly(Flat(rounds, n))
  {
    if n > 0 {
      FlatServerOnly(rounds, n - 1);
    }
  }

  lemma AllocServerOnly(b: S.Caller, n: nat)
    ensures ServerOnly(AllocSteps(b, n))
  {
    FlatServerOnly(AllocRounds(b), n);
  }

  lemma {:induction false} ServerIsRun(next: (S.Session, S.Step) -> S.Session, s: S.Session, steps: seq<S.Step>)
    requires forall t: S.Session, st: S.Step :: next(t, st) == S.Do(t, st)
    ensures S.Exec(s, steps) == Run(next, s, steps)
  {
    if steps != [] {
      ServerIsRun(next, s, steps[..|steps| - 1]);
    }
  }

  lemma AllocNext(heard: seq<Frame>, b: S.Caller, n: nat)
    requires n + 1 < ID_SPACE
    ensures S.Exec(Allocated(heard, b, n), AllocRound(b, n)) == Allocated(heard, b, n + 1)
  {
    assert AllocRound(b, n) == [] + [S.Arrive(b)] + [S.AddID(n)] + [S.CheckID(n)];
    ServerSnocThree(Allocated(heard, b, n), [], S.Arrive(b), S.AddID(n), S.CheckID(n));
    AllocOne(heard, b, n);
  }

  lemma AllocRuns(heard: seq<Frame>, b: S.Caller, n: nat)
    requires n < ID_SPACE
    ensures S.Exec(S.NEW_SESSION.(heard := heard), AllocSteps(b, n)) == Allocated(heard, b, n)
  {
    var next := (t: S.Session, st: S.Step) => S.Do(t, st);
    var state := (k: nat) => if k < ID_SPACE then Allocated(heard, b, k) else S.NEW_SESSION;
    forall k: nat | k < n ensures Run(next, state(k), AllocRound(b, k)) == state(k + 1) {
      AllocNext(heard, b, k);
      ServerIsRun(next, state(k), AllocRound(b, k));
    }
    FlatLeads(next, state, AllocRounds(b), n);
    ServerIsRun(next, state(0), AllocSteps(b, n));
    assert Choosers(b, 0) == [];
  }

  ghost function WaitSteps(b: S.Caller, i: ReqID): seq<S.Step>
    requires i > 0
  {
    AllocSteps(b, i) + [S.Register(i - 1)] + [S.Act(i - 1, S.Gate)] + [S.Enqueue(i - 1)]
  }

  // Handler i - 1, of caller b, waits at a select with an empty mailbox.
  ghost predicate Waits(s: S.Session, b: S.Caller, i: ReqID) {
    && i > 0 && |s.handlers| == i && s.adds == i && s.reader.Idle? && s.pending == map[i := i - 1]
    && (forall k :: 0 <= k < i ==> s.handlers[k].caller == b)
    && s.handlers[i - 1].up == Sent(i, S.HeadOf(b), true, [], false, false)
    && s.handlers[i - 1].ch == [] && s.handlers[i - 1].closes == 0
    && s.closers == [] && !s.closed && s.doneCloses == 0 && s.winner.None?
  }

  ghost predicate WaitsFirst(s: S.Session, b: S.Caller, i: ReqID) {
    && Waits(s, b, i) && s.handlers[i - 1].pc.AwaitFirst? && s.handlers[i - 1].consumed == [] &&
         s.handlers[i - 1].trace == []
    && s.sendQ == [RequestStart(i, S.HeadOf(b))] && s.writing
  }

  lemma RegisterWaits(heard: seq<Frame>, b: S.Caller, i: ReqID)
    requires i > 0 && b.body.None?
    ensures WaitsFirst(S.Do(S.Do(S.Do(Allocated(heard, b, i), S.Register(i - 1)), S.Act(i - 1, S.Gate)),
            S.Enqueue(i - 1)), b, i)
  {
    var x := Chooser(b, i);
    var s1 := S.Do(Allocated(heard, b, i), S.Register(i - 1));
    assert s1.handlers[i - 1] == x.(pc := S.Sending(RequestStart(i, S.HeadOf(b)), false, S.Start), base := |heard|);
    var s2 := S.Do(s1, S.Act(i - 1, S.Gate));
    assert s2.handlers[i - 1] == x.(pc := S.Sending(RequestStart(i, S.HeadOf(b)), true, S.Start), base := |heard|);
  }

  lemma WaitNext(heard: seq<Frame>, b: S.Caller, i: ReqID, steps: seq<S.Step>)
    requires i > 0 && b.body.None? && S.Exec(S.NEW_SESSION.(heard := heard), steps) == Allocated(heard, b, i)
    ensures WaitsFirst(S.Exec(S.NEW_SESSION.(heard := heard),
                              steps + [S.Register(i - 1)] + [S.Act(i - 1, S.Gate)] + [S.Enqueue(i - 1)]), b, i)
  {
    ServerSnocThree(S.NEW_SESSION.(heard := heard), steps, S.Register(i - 1), S.Act(i - 1, S.Gate), S.Enqueue(i - 1));
    RegisterWaits(heard, b, i);
  }

  lemma WaitServerOnly(b: S.Caller, i: ReqID)
    requires i > 0
    ensures ServerOnly(WaitSteps(b, i))
  {
    AllocServerOnly(b, i);
  }

  // From an idle session to a caller waiting under id i.
  lemma WaitRuns(s: System, b: S.Caller, i: ReqID)
    requires Untouched(s, s.cli) && i > 0 && b.body.None?
    ensures var t := Exec(s, SrvMoves(WaitSteps(b, i)));
            WaitsFirst(t.srv, b, i) && t == s.(srv := t.srv)
  {
    AllocRuns(s.srv.heard, b, i);
    WaitNext(s.srv.heard, b, i, AllocSteps(b, i));
    WaitServerOnly(b, i);
    ServerRuns(s, WaitSteps(b, i));
  }

  // -------------------------------------------------------- a forward speaks

  ghost function HeardBy(s: S.Session, h: nat, f: Frame): S.Session
    requires h < |s.handlers|
  {
    s.(heard := s.heard + [f], handlers := s.handlers[h := S.Take(s.handlers[h].(ch := [f]))])
  }

  lemma Routes(s: S.Session, h: nat, f: Frame)
    requires h < |s.handlers| && (s.handlers[h].pc.AwaitFirst? || s.handlers[h].pc.Streaming?) && s.handlers[h].ch == []
    requires s.reader.Idle? && IsReply(f) && f.id in s.pending && s.pending[f.id] == h
    ensures S.Do(S.Do(S.Do(s, S.ReadFrame(f)), S.Deliver), S.Act(h, S.TakeFrame)) == HeardBy(s, h, f)
  {
    var x := s.handlers[h];
    var s2 := S.Do(S.Do(s, S.ReadFrame(f)), S.Deliver);
    assert s2.handlers[h] == x.(ch := [f]) by { assert [] + [f] == [f]; }
    assert s2.handlers[h := S.Take(x.(ch := [f]))] == s.handlers[h := S.Take(x.(ch := [f]))];
  }

  ghost function HearMoves(h: nat): seq<Move> {
    [ServerReads, Srv(S.Deliver), Srv(S.Act(h, S.TakeFrame))]
  }

  lemma HearRuns(s: System, h: nat, f: Frame)
    requires h < |s.srv.handlers| && (s.srv.handlers[h].pc.AwaitFirst? || s.srv.handlers[h].pc.Streaming?)
    requires s.srv.handlers[h].ch == [] && s.srv.reader.Idle? && s.up == [f] && IsReply(f)
    requires f.id in s.srv.pending && s.srv.pending[f.id] == h
    ensures Exec(s, HearMoves(h)) == s.(srv := HeardBy(s.srv, h, f), up := [])
  {
    Routes(s.srv, h, f);
    ExecThree(s, ServerReads, Srv(S.Deliver), Srv(S.Act(h, S.TakeFrame)));
    ServerExecOne(s.srv, S.ReadFrame(f));
    var s1 := Do(s, ServerReads);
    ServerOne(s1, S.Deliver);
    ServerOne(Do(s1, Srv(S.Deliver)), S.Act(h, S.TakeFrame));
  }

  // Forward k makes move m, which sends one frame, and handler h takes it.
  ghost function SpeakMoves(k: nat, m: C.FMove, h: nat): seq<Move> {
    [Cli(C.Move(k, m))] + HearMoves(h)
  }

  lemma SpeakOne(s: System, k: nat, m: C.FMove, f: Frame)
    requires k < |s.cli.forwards| && C.Sends(s.cli.forwards[k], m, s.cli.broken) == [f] && s.up == []
    ensures Do(s, Cli(C.Move(k, m))) == s.(cli := C.Do(s.cli, C.Move(k, m)), up := [f], emitted := s.emitted + [f])
  {
    ClientOne(s, C.Move(k, m));
    assert [] + [f] == [f];
  }

  lemma SpeakRuns(s: System, h: nat, k: nat, m: C.FMove, f: Frame)
    requires k < |s.cli.forwards| && C.Sends(s.cli.forwards[k], m, s.cli.broken) == [f] && IsReply(f) && s.up == []
    requires h < |s.srv.handlers| && (s.srv.handlers[h].pc.AwaitFirst? || s.srv.handlers[h].pc.Streaming?)
    requires s.srv.handlers[h].ch == [] && s.srv.reader.Idle? && f.id in s.srv.pending && s.srv.pending[f.id] == h
    ensures Exec(s, SpeakMoves(k, m, h)) ==
            s.(srv := HeardBy(s.srv, h, f), cli := C.Do(s.cli, C.Move(k, m)), emitted := s.emitted + [f])
  {
    var st := Cli(C.Move(k, m));
    ExecAppend(s, [st], HearMoves(h));
    ExecOne(s, st);
    SpeakOne(s, k, m, f);
    HearRuns(Do(s, st), h, f);
  }

  // Some moves lead from s to t.
  ghost predicate GoesTo(s: System, t: System) {
    exists moves :: t == Exec(s, moves)
  }

  ghost function Spoken(s: System, h: nat, k: nat, m: C.FMove, f: Frame): System
    requires h < |s.srv.handlers|
  {
    s.(srv := HeardBy(s.srv, h, f), cli := C.Do(s.cli, C.Move(k, m)), emitted := s.emitted + [f])
  }

  lemma SpeakGoes(s: System, h: nat, k: nat, m: C.FMove, f: Frame)
    requires k < |s.cli.forwards| && C.Sends(s.cli.forwards[k], m, s.cli.broken) == [f] && IsReply(f) && s.up == []
    requires h < |s.srv.handlers| && (s.srv.handlers[h].pc.AwaitFirst? || s.srv.handlers[h].pc.Streaming?)
    requires s.srv.handlers[h].ch == [] && s.srv.reader.Idle? && f.id in s.srv.pending && s.srv.pending[f.id] == h
    ensures GoesTo(s, Spoken(s, h, k, m, f))
  {
    SpeakRuns(s, h, k, m, f);
  }

  // ---------------------------------------------- the caller's own forward answers

  // The forward of b's request after it has sent its response_start.
  ghost function Answering(b: S.Caller, i: ReqID, status: int, headers: Headers): C.Forward {
    C.NewForward(Dispatch(i, S.HeadOf(b), [])).(
      pc := C.Pumping, answered := true, status := status, headers := headers, started := true,
      out := [ResponseStart(i, status, headers)])
  }

  ghost function DispatchMoves(n: nat, status: int, headers: Headers): seq<Move> {
    [ServerWrites(true), ClientReads] + [Cli(C.Acquire(n)), Cli(C.Activate(n)), Cli(C.Move(n, C.Answer(status,
      headers)))]
  }

  lemma ReadsStart(c: C.Client, i: ReqID, head: Head)
    requires !head.hasBody
    ensures var d := C.DoReceive(c, RequestStart(i, head));
            && d.forwards == c.forwards + [C.NewForward(Dispatch(i, head, []))]
            && d.slots == c.slots && d.broken == c.broken
  {
  }

  // The one queued frame goes over the wire and is read.
  lemma WriteAndRead(s: System, f: Frame)
    requires s.srv.sendQ == [f] && s.srv.writing && s.down == []
    ensures var t := Exec(s, [ServerWrites(true), ClientReads]);
            && t.srv == s.srv.(sendQ := []) && t.cli == C.DoReceive(s.cli, f)
            && t.down == [] && t.up == s.up && t.emitted == s.emitted
  {
    ExecTwo(s, ServerWrites(true), ClientReads);
    ServerExecOne(s.srv, S.Write(true));
    var t := Do(s, ServerWrites(true));
    assert t.down == [f] by { assert [] + [s.srv.sendQ[0]] == [s.srv.sendQ[0]]; }
    ClientExecOne(t.cli, C.Receive(t.down[0]));
  }

  lemma AcquireOne(c: C.Client, n: nat)
    requires n < |c.forwards| && c.forwards[n].pc.Waiting? && |c.slots| < C.MAX_CONCURRENT
    ensures var d := C.Do(c, C.Acquire(n));
            d.forwards == c.forwards[n := c.forwards[n].(pc := C.Slotted)] && d.broken == c.broken
  {
  }

  lemma ActivateOne(c: C.Client, n: nat)
    requires n < |c.forwards| && c.forwards[n].pc.Slotted?
    ensures var d := C.Do(c, C.Activate(n));
            d.forwards == c.forwards[n := c.forwards[n].(pc := C.Asking)] && d.broken == c.broken
  {
  }

  lemma AnswerOne(c: C.Client, n: nat, status: int, headers: Headers)
    requires n < |c.forwards| && c.forwards[n].pc.Asking?
    ensures var d := C.Do(c, C.Move(n, C.Answer(status, headers)));
            && d.forwards == c.forwards[n := c.forwards[n].(pc := C.Starting, answered := true, status := status,
                 headers := headers)]
            && d.broken == c.broken
  {
    assert c.forwards[n].out + [] == c.forwards[n].out;
  }

  lemma SlotQuiet(s: System, st: C.Step)
    requires st.Acquire? || st.Activate? || (st.Move? && st.m.Answer?)
    ensures Do(s, Cli(st)) == s.(cli := C.Do(s.cli, st))
  {
    ClientOne(s, st);
    assert s.up + [] == s.up && s.emitted + [] == s.emitted;
  }

  // A new forward takes a slot and has the target's answer; nothing else changes.
  lemma SlotMoves(s: System, n: nat, status: int, headers: Headers)
    requires n < |s.cli.forwards| && s.cli.forwards[n].pc.Waiting? && |s.cli.slots| < C.MAX_CONCURRENT
    ensures var t := Exec(s, [Cli(C.Acquire(n)), Cli(C.Activate(n)), Cli(C.Move(n, C.Answer(status, headers)))]);
            && t == s.(cli := t.cli) && t.cli.broken == s.cli.broken
            && t.cli.forwards ==
               s.cli.forwards[n := s.cli.forwards[n].(pc := C.Starting, answered := true, status := status,
                 headers := headers)]
  {
    ExecThree(s, Cli(C.Acquire(n)), Cli(C.Activate(n)), Cli(C.Move(n, C.Answer(status, headers))));
    SlotQuiet(s, C.Acquire(n));
    AcquireOne(s.cli, n);
    var s1 := Do(s, Cli(C.Acquire(n)));
    SlotQuiet(s1, C.Activate(n));
    ActivateOne(s1.cli, n);
    var s2 := Do(s1, Cli(C.Activate(n)));
    SlotQuiet(s2, C.Move(n, C.Answer(status, headers)));
    AnswerOne(s2.cli, n, status, headers);
  }

  // The forward of b's request when the target has answered.
  ghost function Answered(b: S.Caller, i: ReqID, status: int, headers: Headers): C.Forward {
    C.NewForward(Dispatch(i, S.HeadOf(b), [])).(pc := C.Starting, answered := true, status := status,
      headers := headers)
  }

  lemma AppendedSlot(fs: seq<C.Forward>, x: C.Forward, y: C.Forward)
    ensures (fs + [x])[|fs| := y] == fs + [y] && (fs + [x])[|fs|] == x
  {
  }

  // The target has answered the caller's request; nothing has been sent back.
  ghost predicate HasAnswer(s: System, fs: seq<C.Forward>, b: S.Caller, i: ReqID, status: int, headers: Headers) {
    && Waits(s.srv, b, i) && s.srv.handlers[i - 1].pc.AwaitFirst?
    && s.srv.handlers[i - 1].consumed == [] && s.srv.handlers[i - 1].trace == []
    && s.up == [] && s.down == [] && !s.cli.broken && s.cli.forwards == fs + [Answered(b, i, status, headers)]
  }

  lemma DispatchRuns(s: System, b: S.Caller, i: ReqID, status: int, headers: Headers)
    requires WaitsFirst(s.srv, b, i) && b.body.None? && s.down == [] && s.up == []
    requires |s.cli.slots| < C.MAX_CONCURRENT && !s.cli.broken
    ensures HasAnswer(Exec(s, DispatchMoves(|s.cli.forwards|, status, headers)), s.cli.forwards, b, i, status, headers)
  {
    var n := |s.cli.forwards|;
    var first := [ServerWrites(true), ClientReads];
    WriteAndRead(s, RequestStart(i, S.HeadOf(b)));
    ReadsStart(s.cli, i, S.HeadOf(b));
    ExecAppend(s, first, [Cli(C.Acquire(n)), Cli(C.Activate(n)), Cli(C.Move(n, C.Answer(status, headers)))]);
    var t := Exec(s, first);
    AppendedSlot(s.cli.forwards, C.NewForward(Dispatch(i, S.HeadOf(b), [])), Answered(b, i, status, headers));
    SlotMoves(t, n, status, headers);
  }

  ghost function OwnMoves(n: nat, i: ReqID, status: int, headers: Headers): seq<Move>
    requires i > 0
  {
    DispatchMoves(n, status, headers) + SpeakMoves(n, C.SendStart, i - 1)
  }

  // The handler streams: it has taken a response_start and nothing else.
  ghost predicate Streams(s: S.Session, b: S.Caller, i: ReqID, status: int, headers: Headers) {
    && Waits(s, b, i) && s.handlers[i - 1].pc.Streaming?
    && s.handlers[i - 1].consumed == [ResponseStart(i, status, headers)]
    && s.handlers[i - 1].trace == [S.Relayed(NormalStatus(status), Relayable(headers))]
  }

  lemma HeardStart(s: S.Session, b: S.Caller, i: ReqID, status: int, headers: Headers)
    requires Waits(s, b, i) && s.handlers[i - 1].pc.AwaitFirst? && s.handlers[i - 1].consumed == [] &&
             s.handlers[i - 1].trace == []
    ensures Streams(HeardBy(s, i - 1, ResponseStart(i, status, headers)), b, i, status, headers)
  {
  }

  lemma StartsPumping(c: C.Client, fs: seq<C.Forward>, b: S.Caller, i: ReqID, status: int, headers: Headers)
    requires c.forwards == fs + [Answered(b, i, status, headers)] && !c.broken
    ensures C.Sends(c.forwards[|fs|], C.SendStart, false) == [ResponseStart(i, status, headers)]
    ensures var d := C.Do(c, C.Move(|fs|, C.SendStart));
            d.forwards == fs + [Answering(b, i, status, headers)] && !d.broken
  {
    AppendedSlot(fs, Answered(b, i, status, headers), Answering(b, i, status, headers));
    assert [] + [ResponseStart(i, status, headers)] == [ResponseStart(i, status, headers)];
  }

  // The handler relays the status of the forward after fs.
  ghost predicate Relaying(s: System, fs: seq<C.Forward>, b: S.Caller, i: ReqID, status: int, headers: Headers) {
    && Streams(s.srv, b, i, status, headers) && s.up == [] && s.down == [] && !s.cli.broken
    && s.cli.forwards == fs + [Answering(b, i, status, headers)]
  }

  /** The caller's request is dispatched, answered by the target, and its handler
      relays the status. */
  lemma OwnRuns(s: System, b: S.Caller, i: ReqID, status: int, headers: Headers)
    requires WaitsFirst(s.srv, b, i) && b.body.None? && s.down == [] && s.up == []
    requires |s.cli.slots| < C.MAX_CONCURRENT && !s.cli.broken
    ensures Relaying(Exec(s, OwnMoves(|s.cli.forwards|, i, status, headers)), s.cli.forwards, b, i, status, headers)
  {
    DispatchRuns(s, b, i, status, headers);
    RelaysNext(s, DispatchMoves(|s.cli.forwards|, status, headers), s.cli.forwards, b, i, status, headers);
  }

  lemma RelaysNext(s: System, first: seq<Move>, fs: seq<C.Forward>, b: S.Caller, i: ReqID, status: int,
    headers: Headers)
    requires i > 0 && HasAnswer(Exec(s, first), fs, b, i, status, headers)
    ensures Relaying(Exec(s, first + SpeakMoves(|fs|, C.SendStart, i - 1)), fs, b, i, status, headers)
  {
    StartRuns(Exec(s, first), fs, b, i, status, headers);
    ThenRelays(s, first, SpeakMoves(|fs|, C.SendStart, i - 1), fs, b, i, status, headers);
  }

  lemma ThenRelays(
    s: System, first: seq<Move>, second: seq<Move>, fs: seq<C.Forward>, b: S.Caller, i: ReqID, status: int,
      headers: Headers)
    requires Relaying(Exec(Exec(s, first), second), fs, b, i, status, headers)
    ensures Relaying(Exec(s, first + second), fs, b, i, status, headers)
  {
    ExecAppend(s, first, second);
  }

  lemma StartRuns(s: System, fs: seq<C.Forward>, b: S.Caller, i: ReqID, status: int, headers: Headers)
    requires i > 0 && HasAnswer(s, fs, b, i, status, headers)
    ensures Relaying(Exec(s, SpeakMoves(|fs|, C.SendStart, i - 1)), fs, b, i, status, headers)
  {
    StartsPumping(s.cli, fs, b, i, status, headers);
    SpeakRuns(s, i - 1, |fs|, C.SendStart, ResponseStart(i, status, headers));
    HeardStart(s.srv, b, i, status, headers);
  }

  // ------------------------------------------------------------ up to the status

  // The caller has its status, and its handler waits for more, under id 1.
  ghost function UpToStart(b: S.Caller, n: nat, status: int, headers: Headers): seq<Move> {
    SrvMoves(WaitSteps(b, 1)) + OwnMoves(n, 1, status, headers)
  }

  // The state there.
  ghost predicate Started(s: System, b: S.Caller, n: nat, status: int, headers: Headers) {
    && Streams(s.srv, b, 1, status, headers) && s.up == [] && s.down == [] && !s.cli.broken
    && |s.cli.forwards| == n + 1 && s.cli.forwards[n] == Answering(b, 1, status, headers)
  }

  lemma Starts(c0: C.Client, b: S.Caller, status: int, headers: Headers)
    requires b.body.None? && |c0.slots| < C.MAX_CONCURRENT && !c0.broken
    ensures var s := Exec(Init(c0), UpToStart(b, |c0.forwards|, status, headers));
            Started(s, b, |c0.forwards|, status, headers) && s.cli.forwards[..|c0.forwards|] == c0.forwards
  {
    WaitRuns(Init(c0), b, 1);
    var s := Exec(Init(c0), SrvMoves(WaitSteps(b, 1)));
    OwnRuns(s, b, 1, status, headers);
    ExecAppend(Init(c0), SrvMoves(WaitSteps(b, 1)), OwnMoves(|c0.forwards|, 1, status, headers));
  }

  // ------------------------------------------------------------ runs of a connection

  /** Some run of the connection leads to s. */
  ghost predicate Reached(c0: C.Client, s: System) {
    exists moves :: s == Exec(Init(c0), moves)
  }

  lemma ReachedThere(c0: C.Client, s: System, t: System)
    requires Reached(c0, s) && GoesTo(s, t)
    ensures Reached(c0, t)
  {
    var more :| t == Exec(s, more);
    ReachedFurther(c0, s, more);
  }

  lemma ReachedFurther(c0: C.Client, s: System, more: seq<Move>)
    requires Reached(c0, s)
    ensures Reached(c0, Exec(s, more))
  {
    var moves :| s == Exec(Init(c0), moves);
    ExecAppend(Init(c0), moves, more);
  }

  lemma ReachedStart(c0: C.Client)
    ensures Reached(c0, Init(c0))
  {
    assert Exec(Init(c0), []) == Init(c0);
  }

  lemma GoesOne(s: System, m: Move)
    ensures GoesTo(s, Do(s, m))
  {
    ExecOne(s, m);
  }

  // The caller has its status in some run.
  lemma StartsSomewhere(c0: C.Client, b: S.Caller, status: int, headers: Headers) returns (s: System)
    requires b.body.None? && |c0.slots| < C.MAX_CONCURRENT && !c0.broken
    ensures Reached(c0, s) && Started(s, b, |c0.forwards|, status, headers) &&
            s.cli.forwards[..|c0.forwards|] == c0.forwards
  {
    Starts(c0, b, status, headers);
    s := Exec(Init(c0), UpToStart(b, |c0.forwards|, status, headers));
  }
}
