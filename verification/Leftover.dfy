/** Isolation holds on every run of a connection exactly when every forward left
    over from an earlier one is harmless: ids start again at 1, so a forward that
    can still send a status, a body chunk, a clean end or the text of an error can be
    made to answer a request of the new connection. */
module Leftover {
  import opened Proto
  import opened Fold
  import opened Relay
  import opened HandlerShape
  import opened ServerSafety
  import opened System
  import opened EndToEnd
  import opened Isolation
  import opened Runs
  import L = ClientLimits
  import S = Server
  import C = Client

  ghost predicate AllRouted(s: S.Session) {
    forall h :: 0 <= h < |s.handlers| ==> Routed(s.handlers[h].caller)
  }

  /** Every run of the connection that hands out fewer than 2^32 ids, to callers the
      endpoint accepts, is isolated. */
  ghost predicate AlwaysIsolated(c0: C.Client) {
    forall moves: seq<Move>, h: nat ::
      Exec(Init(c0), moves).srv.adds < ID_SPACE && AllRouted(Exec(Init(c0), moves).srv) &&
      h < |Exec(Init(c0), moves).srv.handlers| ==>
        Isolated(Exec(Init(c0), moves), c0, h)
  }

  // Whatever status is relayed, it is the start of the answer to the caller's request.
  ghost predicate RelayedOwn(s: System, c0: C.Client, h: nat)
    requires h < |s.srv.handlers|
  {
    Relays(s.srv.handlers[h].trace) ==> exists k: nat :: AnsweredBy(s, c0, h, k)
  }

  /** On every such run callers are relayed nothing but their own answers. */
  ghost predicate AlwaysRelayedOwn(c0: C.Client) {
    forall moves: seq<Move>, h: nat ::
      Exec(Init(c0), moves).srv.adds < ID_SPACE && AllRouted(Exec(Init(c0), moves).srv) &&
      h < |Exec(Init(c0), moves).srv.handlers| ==>
        RelayedOwn(Exec(Init(c0), moves), c0, h)
  }

  // ------------------------------------------------------------- client schedules

  // One step, or any number of them, of the client alone.
  ghost predicate OneStep(c: C.Client, d: C.Client) {
    exists st: C.Step :: !st.Receive? && !st.Reconnect? && d == C.Do(c, st)
  }

  ghost predicate Leads(c: C.Client, d: C.Client) {
    exists steps :: ClientOnly(steps) && d == C.Exec(c, steps)
  }

  lemma LeadsHere(c: C.Client)
    ensures Leads(c, c)
  {
    assert ClientOnly([]) && c == C.Exec(c, []);
  }

  lemma LeadsOn(c: C.Client, d: C.Client, e: C.Client)
    requires OneStep(c, d) && Leads(d, e)
    ensures Leads(c, e)
  {
    var st: C.Step :| !st.Receive? && !st.Reconnect? && d == C.Do(c, st);
    var rest :| ClientOnly(rest) && e == C.Exec(d, rest);
    ClientAppend(c, [st], rest);
    ClientExecOne(c, st);
    assert ClientOnly([st] + rest);
  }

  lemma {:induction false} ClientIsRun(next: (C.Client, C.Step) -> C.Client, c: C.Client, steps: seq<C.Step>)
    requires forall d: C.Client, st: C.Step :: next(d, st) == C.Do(d, st)
    ensures C.Exec(c, steps) == Run(next, c, steps)
  {
    if steps != [] {
      ClientIsRun(next, c, steps[..|steps| - 1]);
    }
  }

  lemma ClientAppend(c: C.Client, a: seq<C.Step>, b: seq<C.Step>)
    ensures C.Exec(c, a + b) == C.Exec(C.Exec(c, a), b)
  {
    var next := (d: C.Client, st: C.Step) => C.Do(d, st);
    var exec := (d: C.Client, steps: seq<C.Step>) => C.Exec(d, steps);
    forall d: C.Client, steps: seq<C.Step> ensures exec(d, steps) == Run(next, d, steps) {
      ClientIsRun(next, d, steps);
    }
    SameAppend(exec, next, c, a, b);
  }

  lemma LeadsFurther(c: C.Client, d: C.Client, e: C.Client)
    requires Leads(c, d) && Leads(d, e)
    ensures Leads(c, e)
  {
    var a :| ClientOnly(a) && d == C.Exec(c, a);
    var b :| ClientOnly(b) && e == C.Exec(d, b);
    ClientAppend(c, a, b);
    assert ClientOnly(a + b);
  }

  // Only forward h has moved.
  ghost predicate OnlyMoved(c: C.Client, d: C.Client, h: nat) {
    && |d.forwards| == |c.forwards| && !d.broken && d.slots <= c.slots + {h} && L.SlotsOK(d) && L.ActiveOK(d)
    && (h < |c.forwards| ==> d.forwards[h].id == c.forwards[h].id)
    && forall k :: 0 <= k < |c.forwards| && k != h ==> d.forwards[k] == c.forwards[k]
  }

  // The next step of forward h, whatever the target does.
  function NextStep(h: nat, x: C.Forward): C.Step {
    match x.pc
    case Waiting => C.Acquire(h)
    case Slotted => C.Activate(h)
    case Asking => C.Move(h, C.Answer(200, map[]))
    case Failing(_) => C.Move(h, C.SendStart)
    case Starting => C.Move(h, C.SendStart)
    case Pumping => C.Move(h, C.Pump([], Eof))
    case Ending(_) => C.Move(h, C.SendEnd)
    case Unwinding => C.Deactivate(h)
    case _ => C.Release(h)
  }

  // Steps from here to the end.
  function Distance(x: C.Forward): nat {
    match x.pc
    case Waiting => 8
    case Slotted => 7
    case Asking => 6
    case Failing(_) => 5
    case Starting => 5
    case Pumping => 4
    case Ending(_) => 3
    case Unwinding => 2
    case Releasing => 1
    case Over => 0
  }

  // The next step is one of those between entering and leaving `active`.
  predicate Answers(x: C.Forward) {
    x.pc.Asking? || x.pc.Failing? || x.pc.Starting? || x.pc.Pumping? || x.pc.Ending?
  }

  lemma AnswerNears(x: C.Forward, h: nat)
    requires Answers(x)
    ensures NextStep(h, x).Move? && NextStep(h, x).k == h
    ensures var y := C.MoveForward(x, NextStep(h, x).m, false);
            y.id == x.id && Distance(y) < Distance(x) && !y.pc.Waiting?
  {
  }

  lemma AnswerMoves(c: C.Client, h: nat)
    requires h < |c.forwards| && Answers(c.forwards[h]) && !c.broken
    ensures var x, d := c.forwards[h], C.Do(c, NextStep(h, c.forwards[h]));
            NextStep(h, x).Move? && d == c.(forwards := c.forwards[h := C.MoveForward(x, NextStep(h, x).m, false)])
  {
  }

  ghost predicate Tagged(c: C.Client, d: C.Client, h: nat)
    requires h < |c.forwards|
  {
    && |d.forwards| == |c.forwards| && d.forwards == c.forwards[h := c.forwards[h].(pc := d.forwards[h].pc)]
    && d.broken == c.broken && d.slots <= c.slots + {h}
    && Distance(d.forwards[h]) < Distance(c.forwards[h]) && !d.forwards[h].pc.Waiting?
  }

  lemma TakeMoves(c: C.Client, h: nat)
    requires h < |c.forwards| && (c.forwards[h].pc.Waiting? || c.forwards[h].pc.Slotted?) &&
             (c.forwards[h].pc.Waiting? ==> |c.slots| < C.MAX_CONCURRENT)
    ensures Tagged(c, C.Do(c, NextStep(h, c.forwards[h])), h)
  {
  }

  lemma DeactivateMoves(c: C.Client, h: nat)
    requires h < |c.forwards| && c.forwards[h].pc.Unwinding?
    ensures Tagged(c, C.Do(c, C.Deactivate(h)), h)
  {
  }

  lemma ReleaseMoves(c: C.Client, h: nat)
    requires h < |c.forwards| && c.forwards[h].pc.Releasing?
    ensures Tagged(c, C.Do(c, C.Release(h)), h)
  {
  }

  lemma TagMoves(c: C.Client, h: nat)
    requires h < |c.forwards| && !c.forwards[h].pc.Over? && (c.forwards[h].pc.Waiting? ==> |c.slots| < C.MAX_CONCURRENT)
    requires !Answers(c.forwards[h])
    ensures Tagged(c, C.Do(c, NextStep(h, c.forwards[h])), h)
  {
    if c.forwards[h].pc.Waiting? || c.forwards[h].pc.Slotted? {
      TakeMoves(c, h);
    } else if c.forwards[h].pc.Unwinding? {
      DeactivateMoves(c, h);
    } else {
      ReleaseMoves(c, h);
    }
  }

  lemma NextMoves(c: C.Client, h: nat)
    requires h < |c.forwards| && !c.forwards[h].pc.Over? && (c.forwards[h].pc.Waiting? ==> |c.slots| < C.MAX_CONCURRENT)
    requires !c.broken
    ensures var d := C.Do(c, NextStep(h, c.forwards[h]));
            && |d.forwards| == |c.forwards| && !d.broken && d.slots <= c.slots + {h} &&
                 d.forwards[h].id == c.forwards[h].id
            && Distance(d.forwards[h]) < Distance(c.forwards[h]) && !d.forwards[h].pc.Waiting?
            && forall k :: 0 <= k < |c.forwards| && k != h ==> d.forwards[k] == c.forwards[k]
  {
    if Answers(c.forwards[h]) {
      AnswerNears(c.forwards[h], h);
      AnswerMoves(c, h);
    } else {
      TagMoves(c, h);
    }
  }

  // About to send its response_start.
  predicate AtStart(x: C.Forward) {
    x.pc.Starting? || x.pc.Failing?
  }

  // Yet to send its response_start.
  predicate BeforeStart(x: C.Forward) {
    x.pc.Waiting? || x.pc.Slotted? || x.pc.Asking? || AtStart(x)
  }

  lemma NextBeforeStart(c: C.Client, h: nat)
    requires h < |c.forwards| && BeforeStart(c.forwards[h]) && !AtStart(c.forwards[h]) && !c.broken
    requires c.forwards[h].pc.Waiting? ==> |c.slots| < C.MAX_CONCURRENT
    ensures var d := C.Do(c, NextStep(h, c.forwards[h]));
            h < |d.forwards| && BeforeStart(d.forwards[h])
  {
    if c.forwards[h].pc.Asking? {
      AnswerMoves(c, h);
    } else {
      TagMoves(c, h);
    }
  }

  // The next step, and what it leaves alone.
  lemma Next(c: C.Client, h: nat) returns (d: C.Client)
    requires h < |c.forwards| && !c.forwards[h].pc.Over? && (c.forwards[h].pc.Waiting? ==> |c.slots| < C.MAX_CONCURRENT)
    requires !c.broken && L.SlotsOK(c) && L.ActiveOK(c)
    ensures OneStep(c, d) && OnlyMoved(c, d, h) && Distance(d.forwards[h]) < Distance(c.forwards[h]) &&
            !d.forwards[h].pc.Waiting?
    ensures BeforeStart(c.forwards[h]) && !AtStart(c.forwards[h]) ==> BeforeStart(d.forwards[h])
  {
    d := C.Do(c, NextStep(h, c.forwards[h]));
    NextMoves(c, h);
    L.StepLimits(c, NextStep(h, c.forwards[h]));
    if BeforeStart(c.forwards[h]) && !AtStart(c.forwards[h]) {
      NextBeforeStart(c, h);
    }
  }

  lemma MovedTwice(c: C.Client, d: C.Client, e: C.Client, h: nat)
    requires OnlyMoved(c, d, h) && OnlyMoved(d, e, h)
    ensures OnlyMoved(c, e, h)
  {
  }

  /** A forward that holds a slot can be run to its end, whatever it is at. */
  lemma {:induction false} Finish(c: C.Client, h: nat) returns (e: C.Client)
    requires h < |c.forwards| && !c.forwards[h].pc.Waiting? && !c.broken && L.SlotsOK(c) && L.ActiveOK(c)
    ensures Leads(c, e) && OnlyMoved(c, e, h) && e.forwards[h].pc.Over?
    decreases Distance(c.forwards[h])
  {
    if c.forwards[h].pc.Over? {
      LeadsHere(c);
      e := c;
    } else {
      var d := Next(c, h);
      e := Finish(d, h);
      LeadsOn(c, d, e);
      MovedTwice(c, d, e, h);
    }
  }

  // A free slot, and forward j where it was.
  ghost predicate Freed(c: C.Client, d: C.Client, j: nat) {
    && |d.forwards| == |c.forwards| && !d.broken && |d.slots| < C.MAX_CONCURRENT && L.SlotsOK(d) && L.ActiveOK(d)
    && j < |c.forwards| && d.forwards[j] == c.forwards[j]
  }

  lemma OneFewer(slots: set<nat>, fewer: set<nat>, h: nat)
    requires fewer <= slots && h in slots && h !in fewer
    ensures |fewer| < |slots|
  {
    SubsetSize(fewer, slots - {h});
  }

  lemma {:induction false} SubsetSize(a: set<nat>, b: set<nat>)
    requires a <= b
    ensures |a| <= |b|
    decreases |a|
  {
    if a != {} {
      var x :| x in a;
      SubsetSize(a - {x}, b - {x});
    }
  }

  lemma AnotherHolder(slots: set<nat>, j: nat) returns (h: nat)
    requires |slots| >= 2
    ensures h in slots && h != j
  {
    if forall k :: k in slots ==> k == j {
      SubsetSize(slots, {j});
    }
    h :| h in slots && h != j;
  }

  /** A slot can be freed without touching forward j. */
  lemma FreeSlot(c: C.Client, j: nat) returns (d: C.Client)
    requires j < |c.forwards| && !c.broken && L.SlotsOK(c) && L.ActiveOK(c)
    ensures Leads(c, d) && Freed(c, d, j)
  {
    if |c.slots| < C.MAX_CONCURRENT {
      LeadsHere(c);
      d := c;
    } else {
      var h := AnotherHolder(c.slots, j);
      d := Finish(c, h);
      OneFewer(c.slots, d.slots, h);
    }
  }

  /** A forward that has yet to start answering can be brought to the point of it. */
  lemma {:induction false} ToStart(c: C.Client, j: nat) returns (e: C.Client)
    requires j < |c.forwards| && BeforeStart(c.forwards[j]) && !c.broken && L.SlotsOK(c) && L.ActiveOK(c)
    requires c.forwards[j].pc.Waiting? ==> |c.slots| < C.MAX_CONCURRENT
    ensures Leads(c, e) && OnlyMoved(c, e, j) && AtStart(e.forwards[j])
    decreases Distance(c.forwards[j])
  {
    if AtStart(c.forwards[j]) {
      LeadsHere(c);
      e := c;
    } else {
      var d := Next(c, j);
      e := ToStart(d, j);
      LeadsOn(c, d, e);
      MovedTwice(c, d, e, j);
    }
  }

  // ------------------------------------------------------------- the mixed-up runs

  const SOMEBODY: S.Caller := S.Caller("GET", "/t/aaaaaaaa/", "", map[], None)

  lemma SomebodyRouted()
    ensures Routed(SOMEBODY)
  {
    assert "aaaaaaaa" + "/" == "aaaaaaaa/" && "/t/" + "aaaaaaaa" + "/" == SOMEBODY.path;
    SplitRouted("aaaaaaaa", "/");
  }

  lemma WaitersRouted(s: S.Session, i: ReqID)
    requires Waits(s, SOMEBODY, i)
    ensures AllRouted(s) && s.adds < ID_SPACE
  {
    SomebodyRouted();
  }

  // What handler h's caller has seen is no part of any answer to its request.
  ghost predicate Strange(s: System, c0: C.Client, h: nat) {
    forall k: nat :: !AnsweredBy(s, c0, h, k)
  }

  /** Handler h's caller is relayed a status, and what it has seen is no part of the
      answer of any forward that carries its request. */
  ghost predicate Mixed(s: System, c0: C.Client, h: nat) {
    && s.srv.adds < ID_SPACE && AllRouted(s.srv) && h < |s.srv.handlers|
    && Relays(s.srv.handlers[h].trace) && Strange(s, c0, h)
  }

  /** Handler h's caller is refused in words that are not the server's. */
  ghost predicate Told(s: System, h: nat) {
    && s.srv.adds < ID_SPACE && AllRouted(s.srv) && h < |s.srv.handlers|
    && |s.srv.handlers[h].trace| == 1 && s.srv.handlers[h].trace[0].Refusal?
    && s.srv.handlers[h].trace[0].code == 502 && !S.OwnText(s.srv.handlers[h].trace[0].text)
  }

  lemma MixedFurther(c0: C.Client, s: System, t: System, h: nat)
    requires Reached(c0, s) && GoesTo(s, t) && Mixed(t, c0, h)
    ensures SomeRunMixed(c0)
  {
    ReachedThere(c0, s, t);
  }

  /** In some run of the connection a caller is relayed what is not its own. */
  ghost predicate SomeRunMixed(c0: C.Client) {
    exists s: System, h: nat :: Reached(c0, s) && Mixed(s, c0, h)
  }

  /** In some run of the connection a caller is told what is not the server's own. */
  ghost predicate SomeRunTold(c0: C.Client) {
    exists s: System, h: nat :: Reached(c0, s) && Told(s, h)
  }

  lemma MixedIsNeither(s: System, c0: C.Client, h: nat)
    requires Mixed(s, c0, h)
    ensures !Isolated(s, c0, h) && !RelayedOwn(s, c0, h)
  {
  }

  lemma ToldIsNot(s: System, c0: C.Client, h: nat)
    requires Told(s, h)
    ensures !Isolated(s, c0, h)
  {
  }

  lemma BreaksIsolation(c0: C.Client, s: System, h: nat)
    requires Reached(c0, s) && s.srv.adds < ID_SPACE && AllRouted(s.srv) && h < |s.srv.handlers| && !Isolated(s, c0, h)
    ensures !AlwaysIsolated(c0)
  {
    var moves :| s == Exec(Init(c0), moves);
  }

  lemma BreaksRelaying(c0: C.Client, s: System, h: nat)
    requires Reached(c0, s) && s.srv.adds < ID_SPACE && AllRouted(s.srv) && h < |s.srv.handlers| && !RelayedOwn(s,
             c0, h)
    ensures !AlwaysRelayedOwn(c0)
  {
    var moves :| s == Exec(Init(c0), moves);
  }

  lemma MixedNotIsolated(c0: C.Client)
    requires SomeRunMixed(c0)
    ensures !AlwaysIsolated(c0) && !AlwaysRelayedOwn(c0)
  {
    var s: System, h: nat :| Reached(c0, s) && Mixed(s, c0, h);
    MixedIsNeither(s, c0, h);
    BreaksIsolation(c0, s, h);
    BreaksRelaying(c0, s, h);
  }

  lemma ToldNotIsolated(c0: C.Client)
    requires SomeRunTold(c0)
    ensures !AlwaysIsolated(c0)
  {
    var s: System, h: nat :| Reached(c0, s) && Told(s, h);
    ToldIsNot(s, c0, h);
    BreaksIsolation(c0, s, h);
  }

  // No forward of this connection.
  lemma NobodyAnswers(s: System, c0: C.Client, h: nat)
    requires |s.cli.forwards| == |c0.forwards|
    ensures Strange(s, c0, h)
  {
  }

  // The caller is relayed the leftover's status; no forward has its request.
  lemma StatusMixed(s: S.Session, t: System, c0: C.Client, i: ReqID, status: int, headers: Headers)
    requires WaitsFirst(s, SOMEBODY, i) && t.srv == HeardBy(s, i - 1, ResponseStart(i, status, headers))
    requires |t.cli.forwards| == |c0.forwards|
    ensures Mixed(t, c0, i - 1)
  {
    HeardStart(s, SOMEBODY, i, status, headers);
    WaitersRouted(t.srv, i);
    NobodyAnswers(t, c0, i - 1);
  }

  // The step by which a leftover in the middle of its answer spoils another's.
  function Speech(x: C.Forward): C.FMove {
    if x.pc.Pumping? then C.Pump([0], More) else C.SendEnd
  }

  function SpeechFrame(x: C.Forward): Frame {
    if x.pc.Pumping? then ResponseChunk(x.id, |x.pieces|, Encoded([0])) else ResponseEnd(x.id, "")
  }

  // SOMEBODY's handler i - 1 has relayed a status and then a strange byte or end.
  ghost predicate Spoilt(s: S.Session, i: ReqID) {
    && i > 0 && |s.handlers| == i && s.adds == i && (forall k :: 0 <= k < i ==> s.handlers[k].caller == SOMEBODY)
    && Relays(s.handlers[i - 1].trace)
    && (CleanEnd(s.handlers[i - 1].consumed) || BodyBytes(s.handlers[i - 1].trace) == [0])
  }

  lemma StatusThenByte(trace: seq<S.Event>)
    requires |trace| == 2 && trace[0].Relayed? && trace[1] == S.Body([0])
    ensures BodyBytes(trace) == [0]
  {
    assert trace == [trace[0]] + [trace[1]] && [trace[0]] == [] + [trace[0]];
    BodySnoc([trace[0]], trace[1]);
    BodySnoc([], trace[0]);
  }

  // The waiting handler, now y, has heard one more frame.
  lemma HeardKeeps(s: S.Session, t: S.Session, i: ReqID, y: S.Handler)
    requires Waits(s, SOMEBODY, i) && t.handlers == s.handlers[i - 1 := y] && t.adds == s.adds
    requires y.caller == SOMEBODY && Relays(y.trace) && (CleanEnd(y.consumed) || BodyBytes(y.trace) == [0])
    ensures Spoilt(t, i)
  {
  }

  // What the leftover adds to the response.
  lemma TakesByte(x: S.Handler, i: ReqID, no: nat)
    requires x.pc.Streaming? && |x.trace| == 1 && x.trace[0].Relayed? && x.consumed != []
    ensures var y := S.Take(x.(ch := [ResponseChunk(i, no, Encoded([0]))]));
            y.caller == x.caller && Relays(y.trace) && BodyBytes(y.trace) == [0]
  {
    var y := S.Take(x.(ch := [ResponseChunk(i, no, Encoded([0]))]));
    assert y.trace == x.trace + [S.Body([0])];
    StatusThenByte(y.trace);
  }

  lemma TakesCleanEnd(x: S.Handler, i: ReqID)
    requires x.pc.Streaming? && |x.trace| == 1 && x.trace[0].Relayed? && x.consumed != []
    ensures var y := S.Take(x.(ch := [ResponseEnd(i, "")]));
            y.caller == x.caller && Relays(y.trace) && CleanEnd(y.consumed)
  {
    var y := S.Take(x.(ch := [ResponseEnd(i, "")]));
    assert x.trace + [] == x.trace;
    assert y.consumed == x.consumed + [ResponseEnd(i, "")];
  }

  lemma OwnShowsNothing(trace: seq<S.Event>, clean: bool, x: C.Forward)
    requires x.produced == [] && !x.eof && (clean || BodyBytes(trace) == [0])
    ensures !Shows(trace, clean, x)
  {
  }

  lemma NotAnsweredBy(s: System, c0: C.Client, h: nat, k: nat)
    requires h < |s.srv.handlers| && |s.cli.forwards| == |c0.forwards| + 1
    requires s.cli.forwards[|c0.forwards|].produced == [] && !s.cli.forwards[|c0.forwards|].eof
    requires CleanEnd(s.srv.handlers[h].consumed) || BodyBytes(s.srv.handlers[h].trace) == [0]
    ensures !AnsweredBy(s, c0, h, k)
  {
    OwnShowsNothing(s.srv.handlers[h].trace, CleanEnd(s.srv.handlers[h].consumed), s.cli.forwards[|c0.forwards|]);
  }

  // The caller's own answer is empty and unfinished; what it has seen is not.
  lemma OwnNotShown(s: System, c0: C.Client, h: nat, i: ReqID)
    requires h < |s.srv.handlers| && |s.cli.forwards| == |c0.forwards| + 1
    requires s.cli.forwards[|c0.forwards|] == Answering(SOMEBODY, i, 200, map[])
    requires CleanEnd(s.srv.handlers[h].consumed) || BodyBytes(s.srv.handlers[h].trace) == [0]
    ensures Strange(s, c0, h)
  {
    forall k: nat ensures !AnsweredBy(s, c0, h, k) {
      NotAnsweredBy(s, c0, h, k);
    }
  }

  lemma SpeechSends(x: C.Forward)
    requires x.pc.Pumping? || (x.pc.Ending? && x.pc.err == "")
    ensures C.Sends(x, Speech(x), false) == [SpeechFrame(x)]
  {
  }

  // A leftover in the middle of its answer, while the caller's own is under way.
  ghost predicate Meddles(s: System, c0: C.Client, j: nat) {
    && j < |c0.forwards| && !s.cli.broken && s.up == []
    && |s.cli.forwards| == |c0.forwards| + 1 && s.cli.forwards[j].id != 0
    && s.cli.forwards[|c0.forwards|] == Answering(SOMEBODY, s.cli.forwards[j].id, 200, map[])
    && (s.cli.forwards[j].pc.Pumping? || (s.cli.forwards[j].pc.Ending? && s.cli.forwards[j].pc.err == ""))
    && Streams(s.srv, SOMEBODY, s.cli.forwards[j].id, 200, map[])
  }

  lemma SpoiltRouted(s: S.Session, i: ReqID)
    requires Spoilt(s, i)
    ensures AllRouted(s) && s.adds < ID_SPACE
  {
    SomebodyRouted();
  }

  // The caller's own forward is where it was; the session has heard the leftover.
  lemma BodyMixed(t: System, c0: C.Client, i: ReqID)
    requires Spoilt(t.srv, i) && |t.cli.forwards| == |c0.forwards| + 1
    requires t.cli.forwards[|c0.forwards|] == Answering(SOMEBODY, i, 200, map[])
    ensures Mixed(t, c0, i - 1)
  {
    OwnNotShown(t, c0, i - 1, i);
    SpoiltMixed(t, c0, i);
  }

  lemma SpoiltMixed(t: System, c0: C.Client, i: ReqID)
    requires Spoilt(t.srv, i) && Strange(t, c0, i - 1)
    ensures Mixed(t, c0, i - 1)
  {
    SpoiltRouted(t.srv, i);
  }

  lemma MoveTouchesOne(c: C.Client, j: nat, m: C.FMove)
    requires j < |c.forwards|
    ensures var d := C.Do(c, C.Move(j, m));
            |d.forwards| == |c.forwards| && forall k :: 0 <= k < |c.forwards| && k != j ==>
              d.forwards[k] == c.forwards[k]
  {
  }

  // The client has moved alone to c; then somebody waits under id i.
  lemma SomebodyWaits(c0: C.Client, c: C.Client, i: ReqID) returns (s: System)
    requires Leads(c0, c) && i > 0
    ensures Reached(c0, s) && WaitsFirst(s.srv, SOMEBODY, i) && s.cli == c && s.up == [] && s.down == []
  {
    var steps :| ClientOnly(steps) && c == C.Exec(c0, steps);
    RoundsRun(Init(c0), c0, steps);
    var idle := Exec(Init(c0), Rounds(steps));
    WaitRuns(idle, SOMEBODY, i);
    s := Exec(idle, SrvMoves(WaitSteps(SOMEBODY, i)));
    ReachedFurther(c0, idle, SrvMoves(WaitSteps(SOMEBODY, i)));
  }

  // A leftover about to start its answer, and somebody waiting under its id.
  ghost predicate AboutToStart(s: System, c0: C.Client, j: nat) {
    && |s.cli.forwards| == |c0.forwards| && j < |c0.forwards| && AtStart(s.cli.forwards[j]) && !s.cli.broken
    && s.cli.forwards[j].id != 0 && s.up == [] && WaitsFirst(s.srv, SOMEBODY, s.cli.forwards[j].id)
  }

  lemma StarterSpeaks(s: System, c0: C.Client, j: nat) returns (t: System)
    requires AboutToStart(s, c0, j)
    ensures GoesTo(s, t) && Mixed(t, c0, s.cli.forwards[j].id - 1)
  {
    var x := s.cli.forwards[j];
    var f := ResponseStart(x.id, x.status, x.headers);
    SpeakGoes(s, x.id - 1, j, C.SendStart, f);
    t := Spoken(s, x.id - 1, j, C.SendStart, f);
    C.StepKeepsRequests(s.cli, C.Move(j, C.SendStart));
    StatusMixed(s.srv, t, c0, x.id, x.status, x.headers);
  }

  lemma StarterMixes(c0: C.Client, s: System, j: nat)
    requires Reached(c0, s) && AboutToStart(s, c0, j)
    ensures SomeRunMixed(c0)
  {
    var h, t := s.cli.forwards[j].id - 1, s;
    t := StarterSpeaks(s, c0, j);
    MixedFurther(c0, s, t, h);
  }

  lemma StarterWaits(c0: C.Client, c: C.Client, j: nat) returns (s: System)
    requires Leads(c0, c) && j < |c0.forwards| && |c.forwards| == |c0.forwards|
    requires !c.broken && AtStart(c.forwards[j]) && c.forwards[j].id != 0
    ensures Reached(c0, s) && AboutToStart(s, c0, j)
  {
    s := SomebodyWaits(c0, c, c.forwards[j].id);
  }

  /** A leftover that has yet to start answering gives a caller its status. */
  lemma StartMixes(c0: C.Client, c: C.Client, j: nat)
    requires Leads(c0, c) && j < |c0.forwards| && |c.forwards| == |c0.forwards|
    requires !c.broken && AtStart(c.forwards[j]) && c.forwards[j].id != 0
    ensures SomeRunMixed(c0)
  {
    var s := StarterWaits(c0, c, j);
    StarterMixes(c0, s, j);
  }

  lemma OwnMeddles(s: System, c0: C.Client, j: nat) returns (t: System)
    requires j < |c0.forwards| && |s.cli.forwards| == |c0.forwards| && s.cli.forwards[j] == c0.forwards[j] &&
             c0.forwards[j].id != 0
    requires c0.forwards[j].pc.Pumping? || (c0.forwards[j].pc.Ending? && c0.forwards[j].pc.err == "")
    requires WaitsFirst(s.srv, SOMEBODY, c0.forwards[j].id) && s.down == [] && s.up == []
    requires |s.cli.slots| < C.MAX_CONCURRENT && !s.cli.broken
    ensures GoesTo(s, t) && Meddles(t, c0, j)
  {
    OwnRuns(s, SOMEBODY, c0.forwards[j].id, 200, map[]);
    t := Exec(s, OwnMoves(|c0.forwards|, c0.forwards[j].id, 200, map[]));
  }

  /** A leftover in the middle of its answer gives a caller a chunk or an end of it. */
  lemma MiddleMixes(c0: C.Client, c: C.Client, j: nat)
    requires Leads(c0, c) && Freed(c0, c, j) && c0.forwards[j].id != 0
    requires c0.forwards[j].pc.Pumping? || (c0.forwards[j].pc.Ending? && c0.forwards[j].pc.err == "")
    ensures SomeRunMixed(c0)
  {
    var s := SomebodyWaits(c0, c, c0.forwards[j].id);
    var t := OwnMeddles(s, c0, j);
    ReachedThere(c0, s, t);
    MeddlerMixes(c0, t, j);
  }

  lemma MeddlerGoes(s: System, c0: C.Client, j: nat) returns (t: System)
    requires Meddles(s, c0, j)
    ensures GoesTo(s, t) && t.srv == HeardBy(s.srv, s.cli.forwards[j].id - 1, SpeechFrame(s.cli.forwards[j]))
    ensures t.cli == C.Do(s.cli, C.Move(j, Speech(s.cli.forwards[j])))
  {
    var x := s.cli.forwards[j];
    SpeechSends(x);
    SpeakGoes(s, x.id - 1, j, Speech(x), SpeechFrame(x));
    t := Spoken(s, x.id - 1, j, Speech(x), SpeechFrame(x));
  }

  // The caller's own forward does not notice.
  lemma OwnUnmoved(s: System, d: C.Client, c0: C.Client, j: nat)
    requires Meddles(s, c0, j) && d == C.Do(s.cli, C.Move(j, Speech(s.cli.forwards[j])))
    ensures |d.forwards| == |c0.forwards| + 1
    ensures d.forwards[|c0.forwards|] == Answering(SOMEBODY, s.cli.forwards[j].id, 200, map[])
  {
    MoveTouchesOne(s.cli, j, Speech(s.cli.forwards[j]));
  }

  lemma StreamerTakes(s: S.Session, i: ReqID)
    requires Streams(s, SOMEBODY, i, 200, map[])
    ensures var x := s.handlers[i - 1];
            Waits(s, SOMEBODY, i) && x.caller == SOMEBODY
            && x.pc.Streaming? && |x.trace| == 1 && x.trace[0].Relayed? && x.consumed != []
  {
  }

  lemma MeddlerHeard(s: S.Session, x: C.Forward)
    requires x.id > 0 && Streams(s, SOMEBODY, x.id, 200, map[])
    requires x.pc.Pumping? || (x.pc.Ending? && x.pc.err == "")
    ensures Spoilt(HeardBy(s, x.id - 1, SpeechFrame(x)), x.id)
  {
    StreamerTakes(s, x.id);
    var y := s.handlers[x.id - 1];
    if x.pc.Pumping? {
      TakesByte(y, x.id, |x.pieces|);
    } else {
      TakesCleanEnd(y, x.id);
    }
    HeardKeeps(s, HeardBy(s, x.id - 1, SpeechFrame(x)), x.id, S.Take(y.(ch := [SpeechFrame(x)])));
  }

  lemma MeddlerSpeaks(s: System, c0: C.Client, j: nat) returns (t: System)
    requires Meddles(s, c0, j)
    ensures GoesTo(s, t) && Mixed(t, c0, s.cli.forwards[j].id - 1)
  {
    t := MeddlerGoes(s, c0, j);
    OwnUnmoved(s, t.cli, c0, j);
    MeddlerHeard(s.srv, s.cli.forwards[j]);
    BodyMixed(t, c0, s.cli.forwards[j].id);
  }

  lemma MeddlerMixes(c0: C.Client, s: System, j: nat)
    requires Reached(c0, s) && Meddles(s, c0, j)
    ensures SomeRunMixed(c0)
  {
    var h, t := s.cli.forwards[j].id - 1, s;
    t := MeddlerSpeaks(s, c0, j);
    MixedFurther(c0, s, t, h);
  }

  // ------------------------------------------------------------ a stranger's error

  lemma HeardError(s: S.Session, i: ReqID, err: string)
    requires WaitsFirst(s, SOMEBODY, i) && err != "" && !S.OwnText(err)
    ensures var t := HeardBy(s, i - 1, ResponseEnd(i, err));
            && |t.handlers| == i && t.adds == s.adds && (forall k :: 0 <= k < i ==> t.handlers[k].caller == SOMEBODY)
            && t.handlers[i - 1].trace == [S.Refusal(502, err)]
  {
    assert [] + [S.Refusal(502, err)] == [S.Refusal(502, err)];
  }

  // A leftover about to end a failed answer, and somebody waiting under its id.
  ghost predicate AboutToTell(s: System, j: nat, err: string) {
    && j < |s.cli.forwards| && s.cli.forwards[j].pc == C.Ending(err) && err != "" && !S.OwnText(err) && !s.cli.broken
    && s.cli.forwards[j].id != 0 && s.up == [] && WaitsFirst(s.srv, SOMEBODY, s.cli.forwards[j].id)
  }

  lemma EndSends(x: C.Forward, err: string)
    requires x.pc == C.Ending(err)
    ensures C.Sends(x, C.SendEnd, false) == [ResponseEnd(x.id, err)]
  {
  }

  lemma TellerGoes(s: System, i: ReqID, j: nat, err: string) returns (t: System)
    requires j < |s.cli.forwards| && C.Sends(s.cli.forwards[j], C.SendEnd, s.cli.broken) == [ResponseEnd(i, err)]
    requires s.up == [] && WaitsFirst(s.srv, SOMEBODY, i)
    ensures GoesTo(s, t) && t.srv == HeardBy(s.srv, i - 1, ResponseEnd(i, err))
  {
    SpeakGoes(s, i - 1, j, C.SendEnd, ResponseEnd(i, err));
    t := Spoken(s, i - 1, j, C.SendEnd, ResponseEnd(i, err));
  }

  lemma ToldBy(s: S.Session, t: System, i: ReqID, err: string)
    requires WaitsFirst(s, SOMEBODY, i) && err != "" && !S.OwnText(err) && t.srv == HeardBy(s, i - 1,
             ResponseEnd(i, err))
    ensures Told(t, i - 1)
  {
    HeardError(s, i, err);
    SomebodyRouted();
  }

  lemma Tells(s: System, j: nat, err: string) returns (t: System)
    requires AboutToTell(s, j, err)
    ensures GoesTo(s, t) && Told(t, s.cli.forwards[j].id - 1)
  {
    EndSends(s.cli.forwards[j], err);
    t := TellerGoes(s, s.cli.forwards[j].id, j, err);
    ToldBy(s.srv, t, s.cli.forwards[j].id, err);
  }

  lemma TellsSomebody(c0: C.Client, s: System, j: nat, err: string)
    requires Reached(c0, s) && AboutToTell(s, j, err)
    ensures SomeRunTold(c0)
  {
    var h, t := s.cli.forwards[j].id - 1, s;
    t := Tells(s, j, err);
    ToldFurther(c0, s, t, h);
  }

  lemma TellerWaits(c0: C.Client, j: nat) returns (s: System)
    requires !c0.broken && j < |c0.forwards| && c0.forwards[j].id != 0 && c0.forwards[j].pc.Ending?
    requires c0.forwards[j].pc.err != "" && !S.OwnText(c0.forwards[j].pc.err)
    ensures Reached(c0, s) && AboutToTell(s, j, c0.forwards[j].pc.err)
  {
    LeadsHere(c0);
    s := SomebodyWaits(c0, c0, c0.forwards[j].id);
  }

  lemma ToldFurther(c0: C.Client, s: System, t: System, h: nat)
    requires Reached(c0, s) && GoesTo(s, t) && Told(t, h)
    ensures SomeRunTold(c0)
  {
    ReachedThere(c0, s, t);
  }

  /** A leftover at the end of a failed answer tells a caller its error. */
  lemma ErrorTells(c0: C.Client, j: nat)
    requires !c0.broken && j < |c0.forwards| && c0.forwards[j].id != 0 && c0.forwards[j].pc.Ending?
    requires c0.forwards[j].pc.err != "" && !S.OwnText(c0.forwards[j].pc.err)
    ensures SomeRunTold(c0)
  {
    var s := TellerWaits(c0, j);
    TellsSomebody(c0, s, j, c0.forwards[j].pc.err);
  }

  // ---------------------------------------------------------------------- theorems

  lemma WildMixes(c0: C.Client, j: nat)
    requires !c0.broken && L.SlotsOK(c0) && L.ActiveOK(c0) && j < |c0.forwards| && !Tame(c0.forwards[j])
    ensures SomeRunMixed(c0)
  {
    var c := FreeSlot(c0, j);
    if BeforeStart(c0.forwards[j]) {
      var d := ToStart(c, j);
      LeadsFurther(c0, c, d);
      StartMixes(c0, d, j);
    } else {
      MiddleMixes(c0, c, j);
    }
  }

  // A forward that has nothing left to send that a caller could be shown: the error
  // texts of the Go libraries are none of the server's own, so of the last kind there
  // is none in practice.
  predicate Harmless(x: C.Forward) {
    x.id == 0 || Silent(x) || (x.pc.Ending? && S.OwnText(x.pc.err))
  }

  ghost predicate HarmlessLeft(c0: C.Client) {
    forall k :: 0 <= k < |c0.forwards| ==> Harmless(c0.forwards[k])
  }

  lemma HarmlessIsTame(x: C.Forward)
    requires Harmless(x)
    ensures Tame(x)
  {
  }

  lemma LimitsOf(earlier: seq<C.Step>)
    ensures L.SlotsOK(C.Reconnected(earlier)) && L.ActiveOK(C.Reconnected(earlier)) && !C.Reconnected(earlier).broken
  {
    L.LimitsReachable(earlier);
    L.StepLimits(C.Exec(C.NEW_CLIENT, earlier), C.Reconnect);
  }

  lemma HarmlessIsolated(earlier: seq<C.Step>, moves: seq<Move>, h: nat)
    requires HarmlessLeft(C.Reconnected(earlier))
    requires Exec(Init(C.Reconnected(earlier)), moves).srv.adds < ID_SPACE
    requires h < |Exec(Init(C.Reconnected(earlier)), moves).srv.handlers|
    ensures Isolated(Exec(Init(C.Reconnected(earlier)), moves), C.Reconnected(earlier), h)
  {
    var s, c0 := Exec(Init(C.Reconnected(earlier)), moves), C.Reconnected(earlier);
    forall k | 0 <= k < |c0.forwards| ensures Tame(c0.forwards[k]) {
      HarmlessIsTame(c0.forwards[k]);
    }
    EndToEndIsolation(earlier, moves, h);
    C.ReconnectedFaithful(earlier);
    PlumbingHolds(c0, moves);
    LeftoverText(s, c0, h);
  }

  // What a harmless leftover can tell is one of the server's own texts.
  lemma LeftoverText(s: System, c0: C.Client, h: nat)
    requires HarmlessLeft(c0) && Plumbing(s, c0) && s.srv.adds < ID_SPACE && h < |s.srv.handlers|
    ensures ShowsLeftover(c0, s.srv.handlers[h].up.id, s.srv.handlers[h].trace) ==> Refused(s.srv.handlers[h].trace)
  {
    if s.srv.handlers[h].trace != [] {
      WriterHasId(s.srv, h);
    }
  }

  // A handler that has written something has an id, and not 0.
  lemma WriterHasId(s: S.Session, h: nat)
    requires Always(s) && s.adds < ID_SPACE && h < |s.handlers| && s.handlers[h].trace != []
    ensures s.handlers[h].up.id != 0
  {
    assert Shape(s.handlers[h]) && Role(s, s.handlers[h]);
    assert Render([]) == [];
  }

  /** End-to-end isolation, exactly.  After any earlier history of the client: every
      run of the new connection is isolated if and only if each forward left over is
      harmless, that is past its last send, or bound to id 0, or about to send an error
      in one of the server's own texts. */
  lemma IsolationIffHarmless(earlier: seq<C.Step>)
    ensures AlwaysIsolated(C.Reconnected(earlier)) <==> HarmlessLeft(C.Reconnected(earlier))
  {
    var c0 := C.Reconnected(earlier);
    if HarmlessLeft(c0) {
      forall moves: seq<Move>, h: nat |
        Exec(Init(c0), moves).srv.adds < ID_SPACE && AllRouted(Exec(Init(c0), moves).srv) &&
        h < |Exec(Init(c0), moves).srv.handlers|
        ensures Isolated(Exec(Init(c0), moves), c0, h)
      {
        HarmlessIsolated(earlier, moves, h);
      }
    } else {
      var j: nat :| j < |c0.forwards| && !Harmless(c0.forwards[j]);
      LimitsOf(earlier);
      if Tame(c0.forwards[j]) {
        ErrorTells(c0, j);
        ToldNotIsolated(c0);
      } else {
        WildMixes(c0, j);
        MixedNotIsolated(c0);
      }
    }
  }

  /** The same for what is relayed alone, leaving refusals aside: no caller is relayed
      a status, a body byte or a clean end that is not its own if and only if each
      leftover is past its last send, bound to id 0, or about to send only the end of
      a failed answer. */
  lemma RelayedIffTame(earlier: seq<C.Step>)
    ensures AlwaysRelayedOwn(C.Reconnected(earlier)) <==> TameLeft(C.Reconnected(earlier))
  {
    var c0 := C.Reconnected(earlier);
    if TameLeft(c0) {
      forall moves: seq<Move>, h: nat |
        Exec(Init(c0), moves).srv.adds < ID_SPACE && AllRouted(Exec(Init(c0), moves).srv) &&
        h < |Exec(Init(c0), moves).srv.handlers|
        ensures RelayedOwn(Exec(Init(c0), moves), c0, h)
      {
        EndToEndIsolation(earlier, moves, h);
      }
    } else {
      var j: nat :| j < |c0.forwards| && !Tame(c0.forwards[j]);
      LimitsOf(earlier);
      WildMixes(c0, j);
      MixedNotIsolated(c0);
    }
  }
}
