/** One server session as a step machine: any number of relay handlers, the read
    loop, the writer and any number of concurrent close() calls interleave.

    Atomic steps are those of the source: an atomic add, load or swap, a section
    under pendingMu, one enqueue or dequeue, the closing of `done`.  A schedule is
    any sequence of steps; a step that is not enabled leaves the state alone, so
    "for every schedule" is "for every interleaving".  Frames read from the client
    are arbitrary. */
module Server {
  import opened Proto
  import opened Upload
  import opened Relay

  const SEND_QUEUE_CAP: int := 256

  // ------------------------------------------------------------------ handlers

  // The HTTP request of a caller; body None is "no body".
  datatype Caller = Caller(verb: string, path: string, query: string, headers: Headers, body: Option<Bytes>)

  ghost function HeadOf(c: Caller): Head {
    Head(c.verb, SplitTunnelPath(c.path).1, c.query, Filtered(c.headers), c.body.Some?)
  }

  function BodyOf(c: Caller): Bytes {
    if c.body.Some? then c.body.value else []
  }

  // What the caller sees: a status of the server's own with the error text of its
  // JSON body, the status and headers of the target, body bytes, a connection cut
  // short.
  datatype Event = Refusal(code: int, text: string) | Relayed(status: int,
    headers: Headers) | Body(data: Bytes) | Truncated

  // The server's own error texts.
  const UNREACHABLE: string := "tunnel unreachable"
  const UPLOAD_FAILED: string := "failed to stream request body"
  const OFFLINE: string := "tunnel offline"
  const REQUEST_FAILED: string := "request failed"
  const UNEXPECTED: string := "unexpected frame"
  const TIMED_OUT: string := "request timeout"

  // How a handler ends once its best-effort cancel frame is out of the way.
  datatype Verdict = BadGateway(text: string) | GatewayTimeout | Truncate | Silent

  function Events(v: Verdict): seq<Event> {
    match v
    case BadGateway(text) => [Refusal(502, text)]
    case GatewayTimeout => [Refusal(504, TIMED_OUT)]
    case Truncate => [Truncated]
    case Silent => []
  }

  // What a handler does after the frame it is sending.
  datatype After = Start | Chunk(end: ReadEnd) | End | Verdict(v: Verdict)

  datatype Pc =
    | Fresh                                          // before nextID.Add(1)
    | Checking                                       // id chosen, lookup to come
    | Registering                                    // NextReqID returned
    | Sending(f: Frame, gated: bool, next: After)    // gated: past closed.Load()
    | Reading                                        // at r.Body.Read
    | AwaitFirst                                     // stage one select
    | Streaming                                      // stage two select
    | Leaving                                        // at the deferred UnregisterPending
    | Gone

  datatype Handler = Handler(
    caller: Caller, pc: Pc,
    tick: nat,               // which increment of nextID gave it its id
    up: Sent,                // the frames it has enqueued, and its id
    ch: seq<Frame>,          // its mailbox
    closes: nat,             // how often the mailbox's done was closed
    base: nat,               // frames the read loop had read when it registered
    consumed: seq<Frame>,    // frames it took from the mailbox
    trace: seq<Event>,       // what it wrote
    tail: seq<Event>)        // the part of trace no frame accounts for

  ghost function NewHandler(c: Caller): Handler {
    Handler(c, Fresh, 0, Sent(0, HeadOf(c), false, [], false, false), [], 0, 0, [], [], [])
  }

  // A text the server answers 502 with by itself.
  predicate OwnText(text: string) {
    text == UNREACHABLE || text == UPLOAD_FAILED || text == OFFLINE || text == REQUEST_FAILED || text == UNEXPECTED
  }

  // What a first frame that is no response_start is answered with.
  function RefusalText(f: Frame): string {
    if !f.ResponseEnd? then UNEXPECTED else if f.error == "" then REQUEST_FAILED else f.error
  }

  // What consuming f writes when fs was consumed before it.
  ghost function React(fs: seq<Frame>, f: Frame): seq<Event> {
    if fs == [] then
      if f.ResponseStart? then [Relayed(NormalStatus(f.status), Relayable(f.headers))] else [Refusal(502,
        RefusalText(f))]
    else
      if f.ResponseChunk? && f.data.Encoded? then [Body(f.data.raw)] else []
  }

  ghost function Conclude(x: Handler, v: Verdict): Handler {
    x.(pc := Leaving, trace := x.trace + Events(v), tail := x.tail + Events(v))
  }

  // A read that returned no bytes, or whose bytes have been sent.
  ghost function AfterRead(x: Handler, end: ReadEnd): Handler {
    match end
    case More => x.(pc := Reading)
    case Eof => x.(pc := Sending(RequestEnd(x.up.id), false, End))
    case Failed(_) => x.(pc := Sending(Cancel(x.up.id), false, Verdict(BadGateway(UPLOAD_FAILED))))
  }

  // sendWithContext returned nil.
  ghost function Accepted(x: Handler): Handler
    requires x.pc.Sending?
  {
    match x.pc.next
    case Start =>
      x.(up := x.up.(started := true), pc := if x.up.head.hasBody then Reading else AwaitFirst)
    case Chunk(end) =>
      if x.pc.f.RequestChunk? && x.pc.f.data.Encoded?
      then AfterRead(x.(up := x.up.(pieces := x.up.pieces + [x.pc.f.data.raw])), end)
      else x
    case End => x.(up := x.up.(ended := true), pc := AwaitFirst)
    case Verdict(v) => Conclude(x.(up := x.up.(cancelled := true)), v)
  }

  // sendWithContext returned an error.
  ghost function Rejected(x: Handler): Handler
    requires x.pc.Sending?
  {
    match x.pc.next
    case Verdict(v) => Conclude(x, v)
    case Start => x.(pc := Sending(Cancel(x.up.id), false, Verdict(BadGateway(UNREACHABLE))))
    case _ => x.(pc := Sending(Cancel(x.up.id), false, Verdict(BadGateway(UPLOAD_FAILED))))
  }

  ghost function Take(x: Handler): Handler
    requires x.ch != []
  {
    var f := x.ch[0];
    var y := x.(ch := x.ch[1..], consumed := x.consumed + [f], trace := x.trace + React(x.consumed, f));
    if x.pc.AwaitFirst? then y.(pc := if f.ResponseStart? then Streaming else Leaving)
    else y.(pc := if f.ResponseChunk? && f.data.Encoded? then Streaming else Leaving)
  }

  datatype Move =
    | Gate                        // closed.Load()
    | SeeSessionDone              // select: <-s.done
    | GiveUp                      // select: <-ctx.Done(): the caller left, or send's five seconds are over
    | ReadBody(n: nat, end: ReadEnd)
    | TakeFrame                   // select: <-pr.ch
    | SeeMailboxDone              // select: <-pr.done
    | TimeOut(hijack: bool)       // stage one: waitCtx.Done(); stage two: <-idle.C
    | CallerLeft                  // stage two: <-r.Context().Done()

  ghost function CancelThen(x: Handler, v: Verdict): Handler {
    x.(pc := Sending(Cancel(x.up.id), false, Verdict(v)))
  }

  /** A handler's own steps that touch neither the queue nor `pending`. */
  ghost function MoveHandler(x: Handler, m: Move, closed: bool, done: bool): Handler {
    match m
    case Gate =>
      if x.pc.Sending? && !x.pc.gated
      then if closed then Rejected(x) else x.(pc := x.pc.(gated := true))
      else x
    case SeeSessionDone => if x.pc.Sending? && x.pc.gated && done then Rejected(x) else x
    case GiveUp => if x.pc.Sending? && x.pc.gated then Rejected(x) else x
    case ReadBody(n, end) =>
      var body := BodyOf(x.caller);
      var off := |Concat(x.up.pieces)|;
      if x.pc.Reading? && n <= CHUNK_SIZE && off + n <= |body| && (end.Eof? ==> off + n == |body|) then
        if n == 0 then AfterRead(x, end)
        else x.(pc := Sending(RequestChunk(x.up.id, |x.up.pieces|, Encoded(body[off..off + n])), false, Chunk(end)))
      else x
    case TakeFrame => if (x.pc.AwaitFirst? || x.pc.Streaming?) && x.ch != [] then Take(x) else x
    case SeeMailboxDone =>
      if x.closes == 0 then x
      else if x.pc.AwaitFirst? then Conclude(x, BadGateway(OFFLINE))
      else if x.pc.Streaming? then Conclude(x, Silent)
      else x
    case TimeOut(hijack) =>
      if x.pc.AwaitFirst? then CancelThen(x, GatewayTimeout)
      else if x.pc.Streaming? then CancelThen(x, if hijack then Truncate else Silent)
      else x
    case CallerLeft => if x.pc.Streaming? then CancelThen(x, Silent) else x
  }

  // ------------------------------------------------------------------- session

  // Progress of one call of close(): only the winner of the swap gets past Called.
  datatype CloserPc = Called | Lost | Won | Signalled | Drained | Finished

  datatype Reader = Idle | Routing(f: Frame, h: nat) | Stopped

  datatype Session = Session(
    nextID: ReqID, adds: nat,
    pending: map<ReqID, nat>, handlers: seq<Handler>,
    closed: bool, doneCloses: nat, closers: seq<CloserPc>, winner: Option<nat>,
    sendQ: seq<Frame>, sent: seq<Frame>, authors: seq<Option<nat>>,   // who enqueued each frame
    writing: bool,
    reader: Reader, heard: seq<Frame>)

  const NEW_SESSION: Session :=
    Session(0, 0, map[], [], false, 0, [], None, [], [], [], true, Idle, [])

  datatype Step =
    | Arrive(caller: Caller)
    | AddID(h: nat) | CheckID(h: nat) | Register(h: nat) | Unregister(h: nat)
    | Act(h: nat, m: Move)
    | Enqueue(h: nat)                      // select: sendQ <- b
    | SendControl                          // ping, get_stats, hello_ack
    | Write(ok: bool)                      // the writer takes a frame
    | ReadFrame(f: Frame)                  // ReadMessage and the locked lookup
    | Deliver                              // routeResponse: pr.ch <- f
    | DropBlocked                          // routeResponse: <-pr.done
    | StopReading                          // a read error
    | CallClose | Swap(c: nat) | Signal(c: nat) | Drain(c: nat) | Detach(c: nat)

  ghost function Put(s: Session, h: nat, x: Handler): Session
    requires h < |s.handlers|
  {
    s.(handlers := s.handlers[h := x])
  }

  predicate At(s: Session, h: nat, pc: Pc) {
    h < |s.handlers| && s.handlers[h].pc == pc
  }

  predicate CloserAt(s: Session, c: nat, pc: CloserPc) {
    c < |s.closers| && s.closers[c] == pc
  }

  ghost function CloseMailboxes(s: Session): seq<Handler> {
    seq(|s.handlers|, k requires 0 <= k < |s.handlers| =>
      if k in s.pending.Values then s.handlers[k].(closes := s.handlers[k].closes + 1) else s.handlers[k])
  }

  ghost function DoAdd(s: Session, h: nat): Session
    requires h < |s.handlers|
  {
    var x, id := s.handlers[h], Succ(s.nextID);
    Put(s, h, x.(pc := Checking, tick := s.adds + 1, up := x.up.(id := id))).(nextID := id, adds := s.adds + 1)
  }

  ghost function DoRegister(s: Session, h: nat): Session
    requires h < |s.handlers|
  {
    var x := s.handlers[h];
    Put(s, h, x.(pc := Sending(RequestStart(x.up.id, x.up.head), false, Start), base := |s.heard|))
    .(pending := s.pending[x.up.id := h])
  }

  ghost function DoUnregister(s: Session, h: nat): Session
    requires h < |s.handlers|
  {
    var x := s.handlers[h];
    var s' := Put(s, h, x.(pc := Gone));
    if x.up.id in s.pending && s.pending[x.up.id] < |s.handlers| then
      var k := s.pending[x.up.id];
      Put(s', k, s'.handlers[k].(closes := s'.handlers[k].closes + 1)).(pending := s.pending - {x.up.id})
    else s'
  }

  ghost function DoEnqueue(s: Session, h: nat): Session
    requires h < |s.handlers| && s.handlers[h].pc.Sending?
  {
    var x := s.handlers[h];
    Put(s, h, Accepted(x)).(sendQ := s.sendQ + [x.pc.f], sent := s.sent + [x.pc.f], authors := s.authors + [Some(h)])
  }

  ghost function DoRead(s: Session, f: Frame): Session {
    s.(heard := s.heard + [f],
       reader := if IsReply(f) && f.id in s.pending then Routing(f, s.pending[f.id]) else Idle)
  }

  ghost function Do(s: Session, st: Step): Session {
    match st
    case Arrive(c) => s.(handlers := s.handlers + [NewHandler(c)])
    case AddID(h) => if At(s, h, Fresh) then DoAdd(s, h) else s
    case CheckID(h) =>
      if At(s, h, Checking)
      then Put(s, h, s.handlers[h].(pc := if s.handlers[h].up.id in s.pending then Fresh else Registering))
      else s
    case Register(h) => if At(s, h, Registering) then DoRegister(s, h) else s
    case Unregister(h) => if At(s, h, Leaving) then DoUnregister(s, h) else s
    case Act(h, m) =>
      if h < |s.handlers| then Put(s, h, MoveHandler(s.handlers[h], m, s.closed, s.doneCloses > 0)) else s
    case Enqueue(h) =>
      if h < |s.handlers| && s.handlers[h].pc.Sending? && s.handlers[h].pc.gated && |s.sendQ| < SEND_QUEUE_CAP
      then DoEnqueue(s, h)
      else s
    case SendControl =>
      if |s.sendQ| < SEND_QUEUE_CAP
      then s.(sendQ := s.sendQ + [Control], sent := s.sent + [Control], authors := s.authors + [None])
      else s
    case Write(ok) =>
      if s.writing && s.sendQ != [] then s.(sendQ := s.sendQ[1..], writing := ok) else s
    case ReadFrame(f) =>
      if s.reader.Idle? && (IsReply(f) || f.Control?) then DoRead(s, f) else s
    case Deliver =>
      if s.reader.Routing? && s.reader.h < |s.handlers| && |s.handlers[s.reader.h].ch| < MAILBOX_CAP then
        var x := s.handlers[s.reader.h];
        Put(s, s.reader.h, x.(ch := x.ch + [s.reader.f])).(reader := Idle)
      else s
    case DropBlocked =>
      if s.reader.Routing? && s.reader.h < |s.handlers| && s.handlers[s.reader.h].closes > 0
      then s.(reader := Idle)
      else s
    case StopReading => if s.reader.Idle? then s.(reader := Stopped) else s
    case CallClose => s.(closers := s.closers + [Called])
    case Swap(c) =>
      if CloserAt(s, c, Called) then
        if s.closed then s.(closers := s.closers[c := Lost])
        else s.(closers := s.closers[c := Won], closed := true, winner := Some(c))
      else s
    case Signal(c) =>
      if CloserAt(s, c, Won) then s.(closers := s.closers[c := Signalled], doneCloses := s.doneCloses + 1) else s
    case Drain(c) =>
      if CloserAt(s, c, Signalled)
      then s.(closers := s.closers[c := Drained], handlers := CloseMailboxes(s), pending := map[])
      else s
    case Detach(c) => if CloserAt(s, c, Drained) then s.(closers := s.closers[c := Finished]) else s
  }

  ghost function Exec(s: Session, steps: seq<Step>): Session {
    if steps == [] then s else Do(Exec(s, steps[..|steps| - 1]), steps[|steps| - 1])
  }

  // The call of close() that won the swap has emptied `pending`.
  ghost predicate Emptied(s: Session) {
    s.winner.Some? && s.winner.value < |s.closers| &&
    (s.closers[s.winner.value].Drained? || s.closers[s.winner.value].Finished?)
  }
}
