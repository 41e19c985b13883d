/** What a relay handler's own record always looks like: how far its upload is,
    and that what it wrote is what the frames it consumed account for.  Every
    fact here is about one handler and holds whatever the client sends. */
module HandlerShape {
  import opened Proto
  import opened Upload
  import opened Relay
  import opened Server

  /** What the frames a handler consumed make it write. */
  ghost function Render(fs: seq<Frame>): seq<Event> {
    if fs == [] then [] else Render(fs[..|fs| - 1]) + React(fs[..|fs| - 1], fs[|fs| - 1])
  }

  lemma RenderSnoc(fs: seq<Frame>, f: Frame)
    ensures Render(fs + [f]) == Render(fs) + React(fs, f)
  {
    assert (fs + [f])[..|fs|] == fs;
  }

  /** The frames after which a handler goes on to its stage two select. */
  ghost predicate StaysOpen(fs: seq<Frame>) {
    fs != [] ==> fs[0].ResponseStart? && forall k :: 1 <= k < |fs| ==> fs[k].ResponseChunk? && fs[k].data.Encoded?
  }

  lemma StaysOpenSnoc(fs: seq<Frame>, f: Frame)
    requires StaysOpen(fs)
    ensures StaysOpen(fs + [f]) <==> if fs == [] then f.ResponseStart? else f.ResponseChunk? && f.data.Encoded?
  {
    assert (fs + [f])[|fs|] == f;
    assert forall k :: 0 <= k < |fs| ==> (fs + [f])[k] == fs[k];
  }

  // -------------------------------------------------------------- the invariant

  // Nothing sent, nothing consumed.
  ghost predicate Blank(x: Handler) {
    !x.up.started && x.up.pieces == [] && !x.up.ended && !x.up.cancelled && x.consumed == [] && x.tail == []
  }

  // Between request_start and request_end.
  ghost predicate Uploading(x: Handler) {
    x.up.started && x.up.head.hasBody && !x.up.ended && !x.up.cancelled && x.consumed == [] && x.tail == []
  }

  // The whole request is out.
  ghost predicate Uploaded(x: Handler) {
    Whole(x.up) && !x.up.cancelled && x.tail == []
  }

  // request_start and, with a body, request_end are out.
  predicate Whole(up: Sent) {
    up.started && up.ended == up.head.hasBody
  }

  // The text of a 502 without a frame: how far the upload got says why.
  function LeavingText(up: Sent): string {
    if !up.started then UNREACHABLE else if !Whole(up) then UPLOAD_FAILED else OFFLINE
  }

  // The verdicts that fit what the handler has sent and consumed.
  ghost predicate Fits(up: Sent, consumed: seq<Frame>, v: Verdict) {
    if consumed == [] then v == BadGateway(LeavingText(up)) || (v.GatewayTimeout? && Whole(up))
    else consumed[0].ResponseStart? && (v.Truncate? || v.Silent?)
  }

  ghost predicate Concluded(x: Handler) {
    if x.tail == [] then x.consumed != []
    else exists v :: Fits(x.up, x.consumed, v) && x.tail == Events(v)
  }

  ghost predicate SendShape(x: Handler)
    requires x.pc.Sending?
  {
    match x.pc.next
    case Start => Blank(x) && x.pc.f == RequestStart(x.up.id, x.up.head)
    case Chunk(end) =>
      && Uploading(x)
      && x.pc.f.RequestChunk? && x.pc.f.data.Encoded?
      && x.pc.f == RequestChunk(x.up.id, |x.up.pieces|, x.pc.f.data)
      && Concat(x.up.pieces) + x.pc.f.data.raw <= BodyOf(x.caller)
      && (end.Eof? ==> Concat(x.up.pieces) + x.pc.f.data.raw == BodyOf(x.caller))
    case End => Uploading(x) && x.pc.f == RequestEnd(x.up.id) && Concat(x.up.pieces) == BodyOf(x.caller)
    case Verdict(v) =>
      && x.pc.f == Cancel(x.up.id) && !x.up.cancelled && x.tail == [] && Fits(x.up, x.consumed, v)
      && (x.consumed != [] ==> Uploaded(x))
  }

  ghost predicate PcShape(x: Handler) {
    match x.pc
    case Fresh => Blank(x)
    case Checking => Blank(x)
    case Registering => Blank(x)
    case Sending(_, _, _) => SendShape(x)
    case Reading => Uploading(x)
    case AwaitFirst => Uploaded(x) && x.consumed == []
    case Streaming => Uploaded(x) && x.consumed != [] && StaysOpen(x.consumed)
    case Leaving => Concluded(x)
    case Gone => Concluded(x)
  }

  ghost predicate Shape(x: Handler) {
    && x.up.head == HeadOf(x.caller)
    && x.up.Valid()
    && Concat(x.up.pieces) <= BodyOf(x.caller)
    && (x.up.ended ==> Concat(x.up.pieces) == BodyOf(x.caller))
    && (x.consumed != [] ==> Whole(x.up))
    && (x.consumed != [] ==> StaysOpen(x.consumed[..|x.consumed| - 1]))
    && x.trace == Render(x.consumed) + x.tail
    && PcShape(x)
  }

  // -------------------------------------------------------------- preservation

  lemma ConcludeShape(x: Handler, v: Verdict)
    requires Shape(x) && x.tail == [] && Fits(x.up, x.consumed, v)
    ensures Shape(Conclude(x, v))
  {
    var y := Conclude(x, v);
    assert y.tail == Events(v);
    assert Fits(y.up, y.consumed, v);
  }

  lemma AfterReadShape(x: Handler, end: ReadEnd)
    requires Shape(x.(pc := Reading))
    requires end.Eof? ==> Concat(x.up.pieces) == BodyOf(x.caller)
    ensures Shape(AfterRead(x, end))
  {
  }

  lemma AcceptedShape(x: Handler)
    requires Shape(x) && x.pc.Sending?
    ensures Shape(Accepted(x))
  {
    match x.pc.next
    case Start =>
    case Chunk(end) =>
      ConcatSnoc(x.up.pieces, x.pc.f.data.raw);
      AfterReadShape(x.(up := x.up.(pieces := x.up.pieces + [x.pc.f.data.raw])), end);
    case End =>
    case Verdict(v) =>
      var y := x.(up := x.up.(cancelled := true));
      assert y.tail == [] && Fits(y.up, y.consumed, v);
      var z := Conclude(y, v);
      assert z.tail == Events(v);
  }

  lemma RejectedShape(x: Handler)
    requires Shape(x) && x.pc.Sending?
    ensures Shape(Rejected(x))
  {
    match x.pc.next
    case Verdict(v) => ConcludeShape(x, v);
    case _ =>
  }

  lemma TakeShape(x: Handler)
    requires Shape(x) && (x.pc.AwaitFirst? || x.pc.Streaming?) && x.ch != []
    ensures Shape(Take(x))
  {
    RenderSnoc(x.consumed, x.ch[0]);
    StaysOpenSnoc(x.consumed, x.ch[0]);
    assert x.trace == Render(x.consumed);
    assert Take(x).consumed[..|x.consumed|] == x.consumed;
    assert Take(x).consumed != [];
  }

  lemma ReadShape(x: Handler, n: nat, end: ReadEnd, closed: bool, done: bool)
    requires Shape(x)
    ensures Shape(MoveHandler(x, ReadBody(n, end), closed, done))
  {
    var y := MoveHandler(x, ReadBody(n, end), closed, done);
    if y != x && n == 0 {
      assert x.(pc := Reading) == x;
      AfterReadShape(x, end);
    } else if y != x {
      var body, off := BodyOf(x.caller), |Concat(x.up.pieces)|;
      assert Concat(x.up.pieces) == body[..off];
      assert body[..off] + body[off..off + n] == body[..off + n];
    }
  }

  // The moves at a send's select other than the send itself.
  lemma StopShape(x: Handler, m: Move, closed: bool, done: bool)
    requires Shape(x) && (m.Gate? || m.SeeSessionDone? || m.GiveUp?)
    ensures Shape(MoveHandler(x, m, closed, done))
  {
    if x.pc.Sending? { RejectedShape(x); }
  }

  lemma DoneShape(x: Handler, closed: bool, done: bool)
    requires Shape(x)
    ensures Shape(MoveHandler(x, SeeMailboxDone, closed, done))
  {
    if x.pc.AwaitFirst? { ConcludeShape(x, BadGateway(OFFLINE)); }
    if x.pc.Streaming? { ConcludeShape(x, Silent); }
  }

  lemma TimeOutShape(x: Handler, m: Move, closed: bool, done: bool)
    requires Shape(x) && (m.TimeOut? || m.CallerLeft?)
    ensures Shape(MoveHandler(x, m, closed, done))
  {
  }

  lemma MoveShape(x: Handler, m: Move, closed: bool, done: bool)
    requires Shape(x)
    ensures Shape(MoveHandler(x, m, closed, done))
  {
    match m
    case ReadBody(n, end) => ReadShape(x, n, end, closed, done);
    case TakeFrame => if (x.pc.AwaitFirst? || x.pc.Streaming?) && x.ch != [] { TakeShape(x); }
    case SeeMailboxDone => DoneShape(x, closed, done);
    case TimeOut(_) => TimeOutShape(x, m, closed, done);
    case CallerLeft => TimeOutShape(x, m, closed, done);
    case _ => StopShape(x, m, closed, done);
  }

  // ---------------------------------------------------------- what traces look like

  predicate IsStatus(e: Event) {
    e.Refusal? || e.Relayed?
  }

  /** One status, first; body bytes and a cut only after it, and no hop-by-hop
      name or Content-Length in a relayed header. */
  ghost predicate WellFormed(trace: seq<Event>) {
    && trace != [] && IsStatus(trace[0])
    && (forall k :: 1 <= k < |trace| ==> !IsStatus(trace[k]))
    && (forall k :: 0 <= k < |trace| - 1 ==> !trace[k].Truncated?)
    && (trace[0].Refusal? ==> |trace| == 1 && (trace[0].code == 502 || trace[0] == Refusal(504, TIMED_OUT)))
    && (trace[0].Relayed? ==> forall k :: k in trace[0].headers ==> !IsStripped(k))
  }

  // A well-formed trace that may go on.
  ghost predicate Open(trace: seq<Event>) {
    WellFormed(trace) && trace[0].Relayed? && forall k :: 0 <= k < |trace| ==> !trace[k].Truncated?
  }

  lemma OpenSnoc(trace: seq<Event>, e: Event)
    requires Open(trace) && !IsStatus(e)
    ensures WellFormed(trace + [e])
    ensures e.Body? ==> Open(trace + [e])
  {
    var t := trace + [e];
    assert t[0] == trace[0];
    assert forall k :: 0 <= k < |trace| ==> t[k] == trace[k];
  }

  lemma FirstOpen(f: Frame)
    requires f.ResponseStart?
    ensures Open(React([], f))
  {
    var h := Relayable(f.headers);
    assert React([], f) == [Relayed(NormalStatus(f.status), h)];
    assert forall k :: k in h ==> !IsStripped(k);
  }

  lemma {:induction false} RenderOpen(fs: seq<Frame>)
    requires fs != [] && fs[0].ResponseStart?
    ensures Open(Render(fs))
  {
    var n := |fs| - 1;
    if n == 0 {
      FirstOpen(fs[0]);
      assert Render(fs[..n]) == [];
      assert Render(fs) == React([], fs[0]);
    } else {
      RenderOpen(fs[..n]);
      var more := React(fs[..n], fs[n]);
      if more != [] {
        OpenSnoc(Render(fs[..n]), more[0]);
        assert more == [more[0]];
      } else {
        assert Render(fs) == Render(fs[..n]);
      }
    }
  }

  lemma RenderRefused(fs: seq<Frame>)
    requires |fs| == 1 && !fs[0].ResponseStart?
    ensures Render(fs) == [Refusal(502, RefusalText(fs[0]))]
  {
    assert fs[..0] == [];
    assert Render(fs[..0]) == [];
  }

  /** What a handler writes is a well-formed response at every step, and is
      never empty once it has returned. */
  lemma ShapeWellFormed(x: Handler)
    requires Shape(x)
    ensures x.pc.Gone? || x.pc.Leaving? ==> x.trace != []
    ensures x.trace != [] ==> WellFormed(x.trace)
  {
    if x.consumed == [] {
      assert x.trace == x.tail;
    } else if x.consumed[0].ResponseStart? {
      RenderOpen(x.consumed);
      TailWellFormed(x);
    } else {
      RenderRefused(x.consumed);
      assert x.tail == [];
      assert x.trace == [Refusal(502, RefusalText(x.consumed[0]))];
    }
  }

  lemma TailWellFormed(x: Handler)
    requires Shape(x) && x.consumed != [] && x.consumed[0].ResponseStart? && Open(Render(x.consumed))
    ensures WellFormed(x.trace)
  {
    if x.tail == [] {
      assert x.trace == Render(x.consumed);
    } else {
      assert x.tail == [Truncated];
      OpenSnoc(Render(x.consumed), Truncated);
    }
  }
}
