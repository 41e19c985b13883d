/** The tunnel client as a step machine: the read loop feeding the request table,
    and any number of `forward` goroutines.  `pending`, `active` and the running
    forwards survive a reconnect; only `broken` is reset.

    The target is arbitrary: it may refuse, answer with any status, headers and
    pieces of body, and end or fail at any point. */
module Client {
  import opened Proto
  import opened Upload

  const MAX_CONCURRENT: int := 8

  datatype FPc =
    | Waiting               // at c.sem <- struct{}{}
    | Slotted               // has a slot, not yet in active
    | Asking                // in active, up to httpClient.Do
    | Failing(err: string)  // sendError: response_start 502 to come
    | Starting              // response_start to come
    | Pumping               // at resp.Body.Read
    | Ending(err: string)   // response_end to come
    | Unwinding             // deferred delete(c.active, reqID) to come
    | Releasing             // deferred <-c.sem to come
    | Over

  datatype Forward = Forward(
    id: ReqID, head: Head, body: Bytes, pc: FPc, cancelled: bool,
    answered: bool, status: int, headers: Headers,   // the target's answer, or 502
    produced: Bytes, eof: bool,                      // body bytes read from the target
    started: bool, pieces: seq<Bytes>, ended: Option<string>,  // what was sent back
    out: seq<Frame>)                                 // the frames sent back

  datatype Client = Client(
    pending: map<ReqID, Entry>, forwards: seq<Forward>,
    active: map<ReqID, nat>, slots: set<nat>, broken: bool)

  datatype FMove =
    | Fail(err: string)                     // no target, bad request, Do returned an error
    | Answer(status: int, headers: Headers)
    | SendStart
    | Pump(data: Bytes, end: ReadEnd)       // one resp.Body.Read and its response_chunk
    | SendEnd

  datatype Step =
    | Receive(f: Frame)                     // one turn of the read loop
    | Acquire(k: nat) | Activate(k: nat) | Move(k: nat, m: FMove) | Deactivate(k: nat) | Release(k: nat)
    | SendControl                           // ping, pong, stats
    | Break                                 // a write on the connection fails, for good
    | Reconnect

  ghost function NewForward(d: Dispatch): Forward {
    Forward(d.id, d.head, d.body, Waiting, false, false, 0, map[], [], false, false, [], None, [])
  }

  ghost function DispatchOf(x: Forward): Dispatch {
    Dispatch(x.id, x.head, x.body)
  }

  ghost function Dispatched(c: Client): (ds: seq<Dispatch>)
    ensures |ds| == |c.forwards|
    ensures forall k :: 0 <= k < |ds| ==> ds[k] == DispatchOf(c.forwards[k])
  {
    seq(|c.forwards|, k requires 0 <= k < |c.forwards| => DispatchOf(c.forwards[k]))
  }

  ghost function TableOf(c: Client): Table {
    Table(c.pending, Dispatched(c))
  }

  predicate CanPump(x: Forward, data: Bytes, end: ReadEnd) {
    x.pc.Pumping? && |data| <= CHUNK_SIZE && (end.Failed? ==> end.err != "")
  }

  /** The frames one step of a forward sends; none once the connection is broken. */
  ghost function Sends(x: Forward, m: FMove, broken: bool): seq<Frame> {
    if broken then []
    else if m.SendStart? && (x.pc.Starting? || x.pc.Failing?) then [ResponseStart(x.id, x.status, x.headers)]
    else if m.Pump? && CanPump(x, m.data, m.end) && m.data != [] then [ResponseChunk(x.id, |x.pieces|, Encoded(m.data))]
    else if m.SendEnd? && x.pc.Ending? then [ResponseEnd(x.id, x.pc.err)]
    else []
  }

  ghost function AfterPump(x: Forward, end: ReadEnd): Forward {
    match end
    case More => x.(pc := Pumping)
    case Eof => x.(eof := true, pc := Ending(""))
    case Failed(err) => x.(pc := Ending(err))
  }

  ghost function DoPump(x: Forward, data: Bytes, end: ReadEnd, broken: bool): Forward {
    var y := x.(produced := x.produced + data);
    if data == [] then AfterPump(y, end)
    else if broken then y.(pc := Unwinding)
    else AfterPump(y.(pieces := y.pieces + [data]), end)
  }

  /** The steps of one forward between taking its slot and unwinding.  Errors of
      the Go libraries have a text; the empty string means "no error". */
  ghost function Advance(x: Forward, m: FMove, broken: bool): Forward {
    match m
    case Fail(err) =>
      if x.pc.Asking? && err != "" then x.(status := 502, headers := map[], pc := Failing(err)) else x
    case Answer(status, headers) =>
      if x.pc.Asking? then x.(answered := true, status := status, headers := headers, pc := Starting) else x
    case SendStart =>
      if x.pc.Starting? then x.(started := !broken, pc := if broken then Unwinding else Pumping)
      else if x.pc.Failing? then x.(started := !broken, pc := Ending(x.pc.err))
      else x
    case Pump(data, end) => if CanPump(x, data, end) then DoPump(x, data, end, broken) else x
    case SendEnd =>
      if x.pc.Ending? then x.(ended := if broken then None else Some(x.pc.err), pc := Unwinding) else x
  }

  ghost function MoveForward(x: Forward, m: FMove, broken: bool): Forward {
    Advance(x, m, broken).(out := x.out + Sends(x, m, broken))
  }

  ghost function Put(c: Client, k: nat, x: Forward): Client
    requires k < |c.forwards|
  {
    c.(forwards := c.forwards[k := x])
  }

  predicate At(c: Client, k: nat, pc: FPc) {
    k < |c.forwards| && c.forwards[k].pc == pc
  }

  // handleCancel's second section: drop the active entry and cancel its context.
  ghost function CancelActive(c: Client, i: ReqID): Client {
    if i in c.active && c.active[i] < |c.forwards| then
      var k := c.active[i];
      Put(c, k, c.forwards[k].(cancelled := true)).(active := c.active - {i})
    else c.(active := c.active - {i})
  }

  ghost function DoReceive(c: Client, f: Frame): Client {
    var t := TableStep(TableOf(c), f);
    var out := if f.Control? then [] else StepSlot(SlotOf(TableOf(c), f.id), f).out;
    var c' := c.(pending := t.pending,
                 forwards := c.forwards + if out != [] then [NewForward(out[0])] else []);
    if f.Cancel? then CancelActive(c', f.id) else c'
  }

  ghost function Do(c: Client, st: Step): Client {
    match st
    case Receive(f) => DoReceive(c, f)
    case Acquire(k) =>
      if At(c, k, Waiting) && |c.slots| < MAX_CONCURRENT
      then Put(c, k, c.forwards[k].(pc := Slotted)).(slots := c.slots + {k})
      else c
    case Activate(k) =>
      if At(c, k, Slotted)
      then Put(c, k, c.forwards[k].(pc := Asking)).(active := c.active[c.forwards[k].id := k])
      else c
    case Move(k, m) =>
      if k < |c.forwards| then Put(c, k, MoveForward(c.forwards[k], m, c.broken)) else c
    case Deactivate(k) =>
      if At(c, k, Unwinding)
      then Put(c, k, c.forwards[k].(pc := Releasing)).(active := c.active - {c.forwards[k].id})
      else c
    case Release(k) =>
      if At(c, k, Releasing)
      then Put(c, k, c.forwards[k].(pc := Over)).(slots := c.slots - {k})
      else c
    case SendControl => c
    case Break => c.(broken := true)
    case Reconnect => c.(broken := false)
  }

  /** The frames a step puts on the connection. */
  ghost function Emit(c: Client, st: Step): seq<Frame> {
    match st
    case Move(k, m) => if k < |c.forwards| then Sends(c.forwards[k], m, c.broken) else []
    case SendControl => if c.broken then [] else [Control]
    case _ => []
  }

  ghost function Exec(c: Client, steps: seq<Step>): Client {
    if steps == [] then c else Do(Exec(c, steps[..|steps| - 1]), steps[|steps| - 1])
  }

  // ------------------------------------------------------------ one forward's answer

  ghost function AnswerChunks(i: ReqID, pieces: seq<Bytes>): (fs: seq<Frame>)
    ensures |fs| == |pieces|
    ensures forall k :: 0 <= k < |fs| ==> fs[k] == ResponseChunk(i, k, Encoded(pieces[k]))
  {
    seq(|pieces|, k requires 0 <= k < |pieces| => ResponseChunk(i, k, Encoded(pieces[k])))
  }

  ghost function AnswerFrames(x: Forward): seq<Frame> {
    (if x.started then [ResponseStart(x.id, x.status, x.headers)] else []) +
    AnswerChunks(x.id, x.pieces) +
    (if x.ended.Some? then [ResponseEnd(x.id, x.ended.value)] else [])
  }

  ghost predicate Unanswered(x: Forward) {
    !x.answered && !x.started && x.pieces == [] && x.produced == [] && !x.eof && x.ended.None?
  }

  ghost predicate Pumped(x: Forward) {
    x.answered && x.started && Concat(x.pieces) == x.produced && x.ended.None?
  }

  /** What a forward has sent back is a response of the protocol, and its body is
      what the target produced; it ends without an error exactly at end of file. */
  ghost predicate Faithful(x: Forward) {
    && x.out == AnswerFrames(x)
    && Concat(x.pieces) <= x.produced
    && (x.pieces != [] ==> x.started && x.answered)
    && (x.started && !x.answered ==> x.status == 502 && x.headers == map[])
    && (!x.answered ==> x.produced == [])
    && (x.ended.Some? ==> Concat(x.pieces) == x.produced && (x.ended.value == "" <==> x.eof))
    && (x.ended == Some("") ==> x.started && x.answered)
    && (match x.pc
        case Waiting => Unanswered(x)
        case Slotted => Unanswered(x)
        case Asking => Unanswered(x)
        case Failing(err) => Unanswered(x) && err != "" && x.status == 502 && x.headers == map[]
        case Starting => Unanswered(x.(answered := false)) && x.answered
        case Pumping => Pumped(x) && !x.eof
        case Ending(err) =>
          x.ended.None? && (err == "" <==> x.eof) &&
          (if x.answered then Pumped(x) else Unanswered(x.(started := false)) && err != "")
        case _ => true)
  }

  lemma AnswerChunksSnoc(i: ReqID, pieces: seq<Bytes>, piece: Bytes)
    ensures AnswerChunks(i, pieces + [piece])
         == AnswerChunks(i, pieces) + [ResponseChunk(i, |pieces|, Encoded(piece))]
  {
  }

  lemma SendStartFaithful(x: Forward, broken: bool)
    requires Faithful(x)
    ensures Faithful(MoveForward(x, SendStart, broken))
  {
    assert AnswerChunks(x.id, []) == [];
    assert Concat([]) == [];
  }

  lemma AfterPumpFaithful(x: Forward, end: ReadEnd)
    requires Faithful(x) && x.pc.Pumping? && (end.Failed? ==> end.err != "")
    ensures Faithful(AfterPump(x, end))
  {
    assert AnswerFrames(AfterPump(x, end)) == AnswerFrames(x);
  }

  lemma ChunkFaithful(x: Forward, data: Bytes)
    requires Faithful(x) && x.pc.Pumping?
    ensures Faithful(x.(produced := x.produced + data, pieces := x.pieces + [data],
                        out := x.out + [ResponseChunk(x.id, |x.pieces|, Encoded(data))]))
  {
    AnswerChunksSnoc(x.id, x.pieces, data);
    ConcatSnoc(x.pieces, data);
  }

  // A pump is its chunk, if any, and then what the read reported.
  lemma PumpParts(x: Forward, data: Bytes, end: ReadEnd)
    requires CanPump(x, data, end)
    ensures data == [] ==> MoveForward(x, Pump(data, end), false) == AfterPump(x, end)
    ensures data != [] ==>
      MoveForward(x, Pump(data, end), false) ==
      AfterPump(x.(produced := x.produced + data, pieces := x.pieces + [data],
                   out := x.out + [ResponseChunk(x.id, |x.pieces|, Encoded(data))]), end)
  {
    assert x.produced + [] == x.produced && x.out + [] == x.out;
  }

  lemma BrokenPumpFaithful(x: Forward, data: Bytes, end: ReadEnd)
    requires Faithful(x) && CanPump(x, data, end)
    ensures Faithful(MoveForward(x, Pump(data, end), true))
  {
    assert x.out + [] == x.out;
    if data == [] {
      assert x.produced + data == x.produced;
      AfterPumpFaithful(x, end);
    }
  }

  lemma PumpFaithful(x: Forward, data: Bytes, end: ReadEnd, broken: bool)
    requires Faithful(x) && CanPump(x, data, end)
    ensures Faithful(MoveForward(x, Pump(data, end), broken))
  {
    if broken {
      BrokenPumpFaithful(x, data, end);
    } else {
      PumpParts(x, data, end);
      if data == [] {
        AfterPumpFaithful(x, end);
      } else {
        ChunkFaithful(x, data);
        AfterPumpFaithful(x.(produced := x.produced + data, pieces := x.pieces + [data],
                             out := x.out + [ResponseChunk(x.id, |x.pieces|, Encoded(data))]), end);
      }
    }
  }

  lemma AskedFaithful(x: Forward, m: FMove, broken: bool)
    requires Faithful(x) && (m.Fail? || m.Answer?)
    ensures Faithful(MoveForward(x, m, broken))
  {
    assert x.out + [] == x.out;
    assert AnswerFrames(MoveForward(x, m, broken)) == AnswerFrames(x);
  }

  lemma EndedFrames(x: Forward, err: string)
    requires Faithful(x) && x.pc == Ending(err)
    ensures AnswerFrames(x.(ended := Some(err), pc := Unwinding)) == AnswerFrames(x) + [ResponseEnd(x.id, err)]
  {
  }

  lemma SendEndFaithful(x: Forward, broken: bool)
    requires Faithful(x)
    ensures Faithful(MoveForward(x, SendEnd, broken))
  {
    assert x.out + [] == x.out;
    if x.pc.Ending? {
      EndedFrames(x, x.pc.err);
    }
  }

  lemma MoveFaithful(x: Forward, m: FMove, broken: bool)
    requires Faithful(x)
    ensures Faithful(MoveForward(x, m, broken))
  {
    match m
    case SendStart => SendStartFaithful(x, broken);
    case Pump(data, end) =>
      if CanPump(x, data, end) { PumpFaithful(x, data, end, broken); } else { assert MoveForward(x, m, broken) == x; }
    case SendEnd => SendEndFaithful(x, broken);
    case _ => AskedFaithful(x, m, broken);
  }

  // Steps outside the answer: a slot, an active entry, a cancelled context.
  lemma TagFaithful(x: Forward, y: Forward)
    requires Faithful(x) && y == x.(pc := y.pc, cancelled := y.cancelled)
    requires y.pc == x.pc || (Unanswered(x) && (y.pc.Slotted? || y.pc.Asking?)) || y.pc.Releasing? || y.pc.Over?
    ensures Faithful(y)
  {
    assert AnswerFrames(y) == AnswerFrames(x);
  }

  // Between acquiring the semaphore and releasing it.
  predicate HoldsSlot(x: Forward) {
    !x.pc.Waiting? && !x.pc.Over?
  }

  // Between entering `active` and the deferred delete.
  predicate Listed(x: Forward) {
    HoldsSlot(x) && !x.pc.Slotted? && !x.pc.Releasing?
  }

  // A forward's own steps change neither its request nor what it holds.
  predicate Kept(x: Forward, y: Forward) {
    && y.id == x.id && y.head == x.head && y.body == x.body
    && HoldsSlot(y) == HoldsSlot(x) && Listed(y) == Listed(x)
  }

  lemma AfterPumpKeeps(x: Forward, end: ReadEnd)
    requires x.pc.Pumping?
    ensures Kept(x, AfterPump(x, end))
  {
  }

  lemma PumpKeeps(x: Forward, data: Bytes, end: ReadEnd, broken: bool)
    requires x.pc.Pumping?
    ensures Kept(x, DoPump(x, data, end, broken))
  {
    var y := x.(produced := x.produced + data);
    AfterPumpKeeps(y, end);
    AfterPumpKeeps(y.(pieces := y.pieces + [data]), end);
  }

  lemma AdvanceKeeps(x: Forward, m: FMove, broken: bool)
    requires !m.Pump?
    ensures Kept(x, Advance(x, m, broken))
  {
  }

  lemma MoveKeeps(x: Forward, m: FMove, broken: bool)
    ensures Kept(x, MoveForward(x, m, broken))
  {
    if m.Pump? {
      if x.pc.Pumping? { PumpKeeps(x, m.data, m.end, broken); }
    } else {
      AdvanceKeeps(x, m, broken);
    }
  }

  // Only the read loop changes the request table.
  lemma StepKeepsRequests(c: Client, st: Step)
    requires !st.Receive?
    ensures var d := Do(c, st);
            d.pending == c.pending && |d.forwards| == |c.forwards| &&
            forall k :: 0 <= k < |c.forwards| ==> DispatchOf(d.forwards[k]) == DispatchOf(c.forwards[k])
  {
    if st.Move? && st.k < |c.forwards| {
      MoveKeeps(c.forwards[st.k], st.m, c.broken);
    }
  }

  ghost predicate AllFaithful(c: Client) {
    forall k :: 0 <= k < |c.forwards| ==> Faithful(c.forwards[k])
  }

  lemma NewFaithful(d: Dispatch)
    ensures Faithful(NewForward(d))
  {
    assert AnswerChunks(d.id, []) == [];
    assert Concat([]) == [];
  }

  lemma ReceiveFaithful(c: Client, f: Frame)
    requires AllFaithful(c)
    ensures AllFaithful(DoReceive(c, f))
  {
    var t := DoReceive(c, f);
    forall k | 0 <= k < |t.forwards| ensures Faithful(t.forwards[k]) {
      if k < |c.forwards| {
        TagFaithful(c.forwards[k], t.forwards[k]);
      } else {
        NewFaithful(StepSlot(SlotOf(TableOf(c), f.id), f).out[0]);
      }
    }
  }

  lemma StepFaithful(c: Client, st: Step)
    requires AllFaithful(c)
    ensures AllFaithful(Do(c, st))
  {
    match st
    case Receive(f) => ReceiveFaithful(c, f);
    case Move(k, m) => if k < |c.forwards| { MoveFaithful(c.forwards[k], m, c.broken); }
    case Acquire(k) => if k < |c.forwards| { TagStepFaithful(c, st); }
    case Activate(k) => if k < |c.forwards| { TagStepFaithful(c, st); }
    case Deactivate(k) => if k < |c.forwards| { TagStepFaithful(c, st); }
    case Release(k) => if k < |c.forwards| { TagStepFaithful(c, st); }
    case _ =>
  }

  lemma TagStepShape(c: Client, st: Step)
    requires (st.Acquire? || st.Activate? || st.Deactivate? || st.Release?) && st.k < |c.forwards|
    ensures var d := Do(c, st);
            && |d.forwards| == |c.forwards| && (forall j :: 0 <= j < |c.forwards| && j != st.k ==>
                 d.forwards[j] == c.forwards[j])
            && d.forwards[st.k] == c.forwards[st.k].(pc := d.forwards[st.k].pc)
    ensures var x, y := c.forwards[st.k].pc, Do(c, st).forwards[st.k].pc;
            y == x || (x.Waiting? && y.Slotted?) || (x.Slotted? && y.Asking?) || y.Releasing? || y.Over?
  {
  }

  lemma TagStepFaithful(c: Client, st: Step)
    requires AllFaithful(c) && (st.Acquire? || st.Activate? || st.Deactivate? || st.Release?) && st.k < |c.forwards|
    ensures AllFaithful(Do(c, st))
  {
    TagStepShape(c, st);
    assert Faithful(c.forwards[st.k]);
    TagFaithful(c.forwards[st.k], Do(c, st).forwards[st.k]);
  }

  const NEW_CLIENT: Client := Client(map[], [], map[], {}, false)

  lemma {:induction false} FaithfulReachable(steps: seq<Step>)
    ensures AllFaithful(Exec(NEW_CLIENT, steps))
  {
    if steps != [] {
      FaithfulReachable(steps[..|steps| - 1]);
      StepFaithful(Exec(NEW_CLIENT, steps[..|steps| - 1]), steps[|steps| - 1]);
    }
  }

  /** A client at the start of a connection, after any earlier history. */
  ghost function Reconnected(earlier: seq<Step>): Client {
    Do(Exec(NEW_CLIENT, earlier), Reconnect)
  }

  lemma ReconnectedFaithful(earlier: seq<Step>)
    ensures AllFaithful(Reconnected(earlier))
  {
    FaithfulReachable(earlier);
    StepFaithful(Exec(NEW_CLIENT, earlier), Reconnect);
  }
}
