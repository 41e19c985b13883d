/** Request bodies: slicing on the server (streamBody), reassembly in the
    client's table of pending requests, and why neither interleaving nor stale
    entries of an earlier connection can mix two uploads up. */
module Upload {
  import opened Proto

  // ---------------------------------------------------------------- slicing

  // One call of body.Read: the bytes it returned and what it reported.
  datatype Read = Read(data: Bytes, end: ReadEnd)

  // Read returns at most as many bytes as the buffer holds.
  ghost predicate Bounded(input: seq<Read>) {
    forall k :: 0 <= k < |input| ==> |input[k].data| <= CHUNK_SIZE
  }

  /** The non-empty reads up to the one that reports an end. */
  ghost function Pieces(input: seq<Read>): seq<Bytes> {
    if input == [] then []
    else
      (if input[0].data == [] then [] else [input[0].data]) +
      (if input[0].end.More? then Pieces(input[1..]) else [])
  }

  /** Reading reaches end of file before it fails (running out of reads, a
      reader that never answers again, counts as failing). */
  ghost predicate ReachesEof(input: seq<Read>) {
    input != [] && (input[0].end.Eof? || (input[0].end.More? && ReachesEof(input[1..])))
  }

  ghost function ChunkFrames(i: ReqID, pieces: seq<Bytes>): (fs: seq<Frame>)
    ensures |fs| == |pieces|
    ensures forall k :: 0 <= k < |fs| ==> fs[k] == RequestChunk(i, k, Encoded(pieces[k]))
  {
    seq(|pieces|, k requires 0 <= k < |pieces| => RequestChunk(i, k, Encoded(pieces[k])))
  }

  lemma ChunkFramesSnoc(i: ReqID, pieces: seq<Bytes>, piece: Bytes)
    ensures ChunkFrames(i, pieces + [piece])
         == ChunkFrames(i, pieces) + [RequestChunk(i, |pieces|, Encoded(piece))]
  {
  }

  lemma ChunkFramesTake(i: ReqID, pieces: seq<Bytes>, n: nat)
    requires n <= |pieces|
    ensures ChunkFrames(i, pieces[..n]) == ChunkFrames(i, pieces)[..n]
  {
  }

  lemma ChunkFramesPrefix(i: ReqID, a: seq<Bytes>, b: seq<Bytes>)
    requires a <= b
    ensures ChunkFrames(i, a) <= ChunkFrames(i, b)
  {
    assert ChunkFrames(i, b)[..|a|] == ChunkFrames(i, a);
  }

  lemma {:induction false} PiecesBounded(input: seq<Read>)
    requires Bounded(input)
    ensures forall k :: 0 <= k < |Pieces(input)| ==> 0 < |Pieces(input)[k]| <= CHUNK_SIZE
  {
    if input != [] {
      PiecesBounded(input[1..]);
    }
  }

  lemma PiecesStep(input: seq<Read>, k: nat)
    requires k < |input|
    ensures Pieces(input[k..]) == (if input[k].data == [] then [] else [input[k].data]) +
                                  (if input[k].end.More? then Pieces(input[k + 1..]) else [])
    ensures ReachesEof(input[k..]) <==> input[k].end.Eof? || (input[k].end.More? && ReachesEof(input[k + 1..]))
  {
    assert input[k..][1..] == input[k + 1..];
  }

  // Read k, when it is pieces[no..] that is left.
  lemma PieceTaken(input: seq<Read>, k: nat, pieces: seq<Bytes>, no: nat)
    requires k < |input| && no <= |pieces| && Pieces(input[k..]) == pieces[no..]
    ensures input[k].data != [] ==> no < |pieces| && pieces[..no + 1] == pieces[..no] + [input[k].data]
    ensures var n := if input[k].data == [] then no else no + 1;
            if input[k].end.More? then pieces[n..] == Pieces(input[k + 1..]) else n == |pieces|
  {
    PiecesStep(input, k);
    if input[k].data != [] {
      assert pieces[no] == pieces[no..][0] == input[k].data;
      assert pieces[no + 1..] == pieces[no..][1..];
    } else if !input[k].end.More? {
      assert |pieces[no..]| == 0;
    }
  }

  // The read loop of streamBody: no chunks went out before the session refused one
  // or the reads ended, and eof says whether they ended well.
  method SendPieces(i: ReqID, input: seq<Read>, accepts: nat) returns (sent: seq<Frame>, no: nat, eof: bool)
    ensures no <= |Pieces(input)| && no <= accepts
    ensures sent == ChunkFrames(i, Pieces(input)[..no])
    ensures no < |Pieces(input)| ==> no == accepts && !eof
    ensures no == |Pieces(input)| ==> eof == ReachesEof(input)
  {
    ghost var all := Pieces(input);
    sent, no, eof := [], 0, false;
    var k := 0;
    assert input[0..] == input;
    while k < |input|
      invariant k <= |input| && no <= |all| && no <= accepts
      invariant sent == ChunkFrames(i, all[..no])
      invariant Pieces(input[k..]) == all[no..]
      invariant ReachesEof(input) == ReachesEof(input[k..])
    {
      var r := input[k];
      PiecesStep(input, k);
      PieceTaken(input, k, all, no);
      if r.data != [] {
        if no == accepts {
          return;
        }
        ChunkFramesSnoc(i, all[..no], r.data);
        sent, no := sent + [RequestChunk(i, no, Encoded(r.data))], no + 1;
      }
      if !r.end.More? {
        eof := r.end.Eof?;
        return;
      }
      k := k + 1;
    }
    assert input[k..] == [];
    assert all[no..] == [];
  }

  /** streamBody: every non-empty read becomes one request_chunk frame, numbered
      from 0; request_end follows only a clean end of file.  `accepts` is the
      number of frames the session takes before it refuses one. */
  method StreamBody(i: ReqID, input: seq<Read>, accepts: nat) returns (sent: seq<Frame>, ok: bool)
    ensures ok <==> ReachesEof(input) && |Pieces(input)| < accepts
    ensures ok ==> sent == ChunkFrames(i, Pieces(input)) + [RequestEnd(i)]
    ensures !ok ==> sent == ChunkFrames(i,
            Pieces(input))[..if |Pieces(input)| < accepts then |Pieces(input)| else accepts]
  {
    var no, eof := 0, false;
    sent, no, eof := SendPieces(i, input, accepts);
    ChunkFramesTake(i, Pieces(input), no);
    ok := eof && no < accepts;
    if ok {
      sent := sent + [RequestEnd(i)];
    }
  }

  // ------------------------------------------------- the client's request table

  // A request being assembled: its request_start and its chunks by number.
  datatype Entry = Entry(head: Head, chunks: map<nat, Bytes>)

  // One `go c.forward(...)`.
  datatype Dispatch = Dispatch(id: ReqID, head: Head, body: Bytes)

  datatype Table = Table(pending: map<ReqID, Entry>, dispatched: seq<Dispatch>)

  // Chunks 0..n-1 in order; a number that never arrived contributes nothing.
  function Assemble(chunks: map<nat, Bytes>, n: nat): Bytes {
    if n == 0 then []
    else Assemble(chunks, n - 1) + if n - 1 in chunks then chunks[n - 1] else []
  }

  // What one frame does to the request it names, and to no other.
  datatype Local = Local(slot: Option<Entry>, out: seq<Dispatch>)

  function StepSlot(slot: Option<Entry>, f: Frame): Local {
    match f
    case RequestStart(i, head) =>
      if head.hasBody then Local(Some(Entry(head, map[])), [])
      else Local(None, [Dispatch(i, head, [])])
    case RequestChunk(i, no, data) =>
      if slot.Some? && data.Encoded?
      then Local(Some(slot.value.(chunks := slot.value.chunks[no := data.raw])), [])
      else Local(slot, [])
    case RequestEnd(i) =>
      if slot.Some?
      then Local(None, [Dispatch(i, slot.value.head, Assemble(slot.value.chunks, |slot.value.chunks|))])
      else Local(None, [])
    case Cancel(i) => Local(None, [])
    case _ => Local(slot, [])
  }

  function SlotOf(t: Table, i: ReqID): Option<Entry> {
    if i in t.pending then Some(t.pending[i]) else None
  }

  function TableStep(t: Table, f: Frame): Table {
    if f.Control? then t
    else
      var r := StepSlot(SlotOf(t, f.id), f);
      Table(if r.slot.Some? then t.pending[f.id := r.slot.value] else t.pending - {f.id},
            t.dispatched + r.out)
  }

  function TableRun(t: Table, fs: seq<Frame>): Table {
    if fs == [] then t else TableStep(TableRun(t, fs[..|fs| - 1]), fs[|fs| - 1])
  }

  /** The client's side of a request, as the read loop updates it: pMu guards
      `pending`, and only the read loop touches it. */
  class RequestTable {
    var pending: map<ReqID, Entry>
    var dispatched: seq<Dispatch>

    function View(): Table
      reads this
    {
      Table(pending, dispatched)
    }

    constructor ()
      ensures View() == Table(map[], [])
    {
      pending, dispatched := map[], [];
    }

    method HandleRequestStart(f: Frame)
      requires f.RequestStart?
      modifies this
      ensures View() == TableStep(old(View()), f)
    {
      pending := pending[f.id := Entry(f.head, map[])];
      if !f.head.hasBody {
        DispatchRequest(f.id);
        assert pending == old(pending) - {f.id};
      }
    }

    method HandleRequestChunk(f: Frame)
      requires f.RequestChunk?
      modifies this
      ensures View() == TableStep(old(View()), f)
    {
      if f.id !in pending {
        assert pending == pending - {f.id};
        return;
      }
      var p := pending[f.id];
      if f.data.Undecodable? {
        assert pending == pending[f.id := p];
        return;
      }
      pending := pending[f.id := p.(chunks := p.chunks[f.no := f.data.raw])];
    }

    method HandleRequestEnd(f: Frame)
      requires f.RequestEnd?
      modifies this
      ensures View() == TableStep(old(View()), f)
    {
      if f.id !in pending {
        assert pending == pending - {f.id};
        return;
      }
      DispatchRequest(f.id);
    }

    // The part of handleCancel that drops a body under assembly.
    method DropPending(i: ReqID)
      modifies this
      ensures View() == TableStep(old(View()), Cancel(i))
    {
      pending := pending - {i};
    }

    method DispatchRequest(i: ReqID)
      modifies this
      ensures i !in old(pending) ==> View() == old(View())
      ensures i in old(pending) ==>
        var p := old(pending)[i];
        View() == Table(old(pending) - {i}, old(dispatched) + [Dispatch(i, p.head, Assemble(p.chunks, |p.chunks|))])
    {
      if i !in pending {
        return;
      }
      var p := pending[i];
      pending := pending - {i};
      var body: Bytes := [];
      for k := 0 to |p.chunks|
        invariant body == Assemble(p.chunks, k)
      {
        body := body + if k in p.chunks then p.chunks[k] else [];
      }
      dispatched := dispatched + [Dispatch(i, p.head, body)];
    }
  }

  // -------------------------------------------------- interleaving is harmless

  function LocalRun(slot: Option<Entry>, fs: seq<Frame>): Local {
    if fs == [] then Local(slot, [])
    else
      var before := LocalRun(slot, fs[..|fs| - 1]);
      var r := StepSlot(before.slot, fs[|fs| - 1]);
      Local(r.slot, before.out + r.out)
  }

  /** The dispatches of request i, in order. */
  function DispatchesOf(ds: seq<Dispatch>, i: ReqID): seq<Dispatch> {
    if ds == [] then []
    else DispatchesOf(ds[..|ds| - 1], i) + if ds[|ds| - 1].id == i then [ds[|ds| - 1]] else []
  }

  lemma DispatchesSnoc(ds: seq<Dispatch>, d: Dispatch, i: ReqID)
    ensures DispatchesOf(ds + [d], i) == DispatchesOf(ds, i) + if d.id == i then [d] else []
  {
    assert (ds + [d])[..|ds|] == ds;
  }

  lemma {:induction false} DispatchesConcat(a: seq<Dispatch>, b: seq<Dispatch>, i: ReqID)
    ensures DispatchesOf(a + b, i) == DispatchesOf(a, i) + DispatchesOf(b, i)
  {
    if b == [] {
      assert a + b == a;
    } else {
      var n := |b| - 1;
      var last := if b[n].id == i then [b[n]] else [];
      DispatchesConcat(a, b[..n], i);
      assert a + b == (a + b[..n]) + [b[n]];
      DispatchesSnoc(a + b[..n], b[n], i);
      assert DispatchesOf(b, i) == DispatchesOf(b[..n], i) + last;
      assert (DispatchesOf(a, i) + DispatchesOf(b[..n], i)) + last == DispatchesOf(a, i) + (DispatchesOf(b[..n],
        i) + last);
    }
  }

  lemma {:induction false} DispatchesHas(ds: seq<Dispatch>, k: nat)
    requires k < |ds|
    ensures ds[k] in DispatchesOf(ds, ds[k].id)
  {
    if k < |ds| - 1 {
      DispatchesHas(ds[..|ds| - 1], k);
    }
  }

  /** Whatever other requests do in between, request i sees its own frames only. */
  lemma {:induction false} Locality(t: Table, fs: seq<Frame>, i: ReqID)
    ensures var local := LocalRun(SlotOf(t, i), Proj(fs, i));
            SlotOf(TableRun(t, fs), i) == local.slot &&
            DispatchesOf(TableRun(t, fs).dispatched, i) == DispatchesOf(t.dispatched, i) + local.out
  {
    if fs != [] {
      var n := |fs| - 1;
      Locality(t, fs[..n], i);
      if Carries(fs[n], i) {
        LocalSnoc(SlotOf(t, i), Proj(fs[..n], i), fs[n]);
      } else {
        assert Proj(fs, i) == Proj(fs[..n], i);
      }
      if !fs[n].Control? {
        StepOut(TableRun(t, fs[..n]), fs[n], i);
      }
    }
  }

  lemma StepOut(t: Table, f: Frame, i: ReqID)
    requires !f.Control?
    ensures DispatchesOf(TableStep(t, f).dispatched, i)
         == DispatchesOf(t.dispatched, i) + if i == f.id then StepSlot(SlotOf(t, i), f).out else []
    ensures SlotOf(TableStep(t, f), i) == if i == f.id then StepSlot(SlotOf(t, i), f).slot else SlotOf(t, i)
  {
    var r := StepSlot(SlotOf(t, f.id), f);
    if r.out == [] {
      assert t.dispatched + r.out == t.dispatched;
    } else {
      DispatchesSnoc(t.dispatched, r.out[0], i);
      assert r.out == [r.out[0]];
    }
  }

  // ------------------------------------------------------------------- uploads

  /** What one relay handler has sent for its request so far. */
  datatype Sent = Sent(id: ReqID, head: Head, started: bool, pieces: seq<Bytes>, ended: bool, cancelled: bool) {
    ghost predicate Valid() {
      && (pieces != [] ==> started && head.hasBody)
      && (ended ==> started && head.hasBody)
    }

    ghost function Frames(): seq<Frame> {
      (if started
       then [RequestStart(id, head)] + ChunkFrames(id, pieces) + (if ended then [RequestEnd(id)] else [])
       else []) +
      (if cancelled then [Cancel(id)] else [])
    }

    /** What a client that received the first n of these frames forwards. */
    ghost function Forwarded(n: nat): seq<Dispatch> {
      if started && !head.hasBody && n >= 1 then [Dispatch(id, head, [])]
      else if ended && n >= |pieces| + 2 then [Dispatch(id, head, Concat(pieces))]
      else []
    }
  }

  ghost function ChunkMap(pieces: seq<Bytes>): map<nat, Bytes> {
    map k: nat | k < |pieces| :: pieces[k]
  }

  lemma {:induction false} ChunkMapSize(pieces: seq<Bytes>)
    ensures |ChunkMap(pieces)| == |pieces|
  {
    if pieces != [] {
      var n := |pieces| - 1;
      ChunkMapSize(pieces[..n]);
      assert ChunkMap(pieces) == ChunkMap(pieces[..n])[n := pieces[n]];
    }
  }

  lemma {:induction false} AssemblePieces(pieces: seq<Bytes>, n: nat)
    requires n <= |pieces|
    ensures Assemble(ChunkMap(pieces), n) == Concat(pieces[..n])
  {
    if n > 0 {
      AssemblePieces(pieces, n - 1);
      assert pieces[..n] == pieces[..n - 1] + [pieces[n - 1]];
      ConcatSnoc(pieces[..n - 1], pieces[n - 1]);
    }
  }

  lemma {:induction false} LocalChunks(slot: Option<Entry>, head: Head, i: ReqID, pieces: seq<Bytes>)
    requires head.hasBody
    ensures LocalRun(slot, [RequestStart(i, head)] + ChunkFrames(i, pieces))
         == Local(Some(Entry(head, ChunkMap(pieces))), [])
  {
    var start := [RequestStart(i, head)];
    if pieces == [] {
      assert start + ChunkFrames(i, pieces) == start;
      assert start[..0] == [];
      assert ChunkMap(pieces) == map[];
    } else {
      var n := |pieces| - 1;
      LocalChunks(slot, head, i, pieces[..n]);
      assert pieces == pieces[..n] + [pieces[n]];
      ChunkFramesSnoc(i, pieces[..n], pieces[n]);
      var fs := start + ChunkFrames(i, pieces);
      assert fs[..|fs| - 1] == start + ChunkFrames(i, pieces[..n]);
      assert ChunkMap(pieces) == ChunkMap(pieces[..n])[n := pieces[n]];
    }
  }

  lemma LocalSnoc(slot: Option<Entry>, fs: seq<Frame>, f: Frame)
    ensures LocalRun(slot, fs + [f]) ==
            var before := LocalRun(slot, fs);
            var r := StepSlot(before.slot, f);
            Local(r.slot, before.out + r.out)
  {
    assert (fs + [f])[..|fs|] == fs;
  }

  /** All or nothing: from any prefix of an upload, and whatever stale entry an
      earlier connection left behind, the client forwards the whole request once
      or nothing at all, and a forwarded request is no longer pending. */
  lemma UploadForwarded(slot: Option<Entry>, u: Sent, got: seq<Frame>)
    requires u.Valid() && got <= u.Frames()
    ensures LocalRun(slot, got).out == u.Forwarded(|got|)
    ensures u.Forwarded(|got|) != [] ==> LocalRun(slot, got).slot.None?
  {
    if got == [] {
    } else if !u.started {
      assert got == [Cancel(u.id)];
      LocalSnoc(slot, [], Cancel(u.id));
      assert [] + got == got;
    } else {
      StartedUploadForwarded(slot, u, got);
    }
  }

  lemma BodilessForwarded(slot: Option<Entry>, u: Sent, got: seq<Frame>)
    requires u.Valid() && u.started && !u.head.hasBody && got != [] && got <= u.Frames()
    ensures LocalRun(slot, got) == Local(None, [Dispatch(u.id, u.head, [])])
  {
    var start := RequestStart(u.id, u.head);
    LocalSnoc(slot, [], start);
    assert [] + [start] == [start] == got[..1];
    if |got| > 1 {
      assert got == [start] + [Cancel(u.id)];
      LocalSnoc(slot, [start], Cancel(u.id));
    } else {
      assert got == [start];
    }
  }

  lemma PartForwarded(slot: Option<Entry>, u: Sent, got: seq<Frame>)
    requires u.Valid() && u.started && u.head.hasBody && 1 <= |got| <= |u.pieces| + 1 && got <= u.Frames()
    ensures LocalRun(slot, got).out == []
  {
    var part := u.pieces[..|got| - 1];
    ChunkFramesPrefix(u.id, part, u.pieces);
    assert got == [RequestStart(u.id, u.head)] + ChunkFrames(u.id, part);
    LocalChunks(slot, u.head, u.id, part);
  }

  lemma StartedUploadForwarded(slot: Option<Entry>, u: Sent, got: seq<Frame>)
    requires u.Valid() && u.started && got != [] && got <= u.Frames()
    ensures LocalRun(slot, got).out == u.Forwarded(|got|)
    ensures u.Forwarded(|got|) != [] ==> LocalRun(slot, got).slot.None?
  {
    if !u.head.hasBody {
      BodilessForwarded(slot, u, got);
    } else if |got| <= |u.pieces| + 1 {
      PartForwarded(slot, u, got);
    } else {
      LateUploadForwarded(slot, u, got);
    }
  }

  // The frame after the last chunk settles the request.
  lemma Settled(slot: Option<Entry>, u: Sent, f: Frame)
    requires u.head.hasBody && (f == RequestEnd(u.id) || f == Cancel(u.id))
    ensures LocalRun(slot, [RequestStart(u.id, u.head)] + ChunkFrames(u.id, u.pieces) + [f])
         == Local(None, if f.RequestEnd? then [Dispatch(u.id, u.head, Concat(u.pieces))] else [])
  {
    LocalChunks(slot, u.head, u.id, u.pieces);
    ChunkMapSize(u.pieces);
    AssemblePieces(u.pieces, |u.pieces|);
    assert u.pieces[..|u.pieces|] == u.pieces;
    LocalSnoc(slot, [RequestStart(u.id, u.head)] + ChunkFrames(u.id, u.pieces), f);
  }

  lemma LateUploadForwarded(slot: Option<Entry>, u: Sent, got: seq<Frame>)
    requires u.Valid() && u.started && u.head.hasBody && got <= u.Frames()
    requires |got| >= |u.pieces| + 2
    ensures LocalRun(slot, got).out == u.Forwarded(|got|)
    ensures u.Forwarded(|got|) != [] ==> LocalRun(slot, got).slot.None?
  {
    var body := [RequestStart(u.id, u.head)] + ChunkFrames(u.id, u.pieces);
    var next := if u.ended then RequestEnd(u.id) else Cancel(u.id);
    Settled(slot, u, next);
    if |got| == |body| + 1 {
      assert got == body + [next];
    } else {
      assert got == body + [next] + [Cancel(u.id)];
      LocalSnoc(slot, body + [next], Cancel(u.id));
    }
  }

  /** The bytes the reads returned, up to and including the one that ends them. */
  ghost function Content(input: seq<Read>): Bytes {
    if input == [] then []
    else input[0].data + if input[0].end.More? then Content(input[1..]) else []
  }

  lemma {:induction false} ConcatCons(piece: Bytes, pieces: seq<Bytes>)
    ensures Concat([piece] + pieces) == piece + Concat(pieces)
  {
    if pieces == [] {
      assert [piece] + pieces == [] + [piece];
      ConcatSnoc([], piece);
    } else {
      var n := |pieces| - 1;
      ConcatCons(piece, pieces[..n]);
      assert [piece] + pieces == ([piece] + pieces[..n]) + [pieces[n]];
      ConcatSnoc([piece] + pieces[..n], pieces[n]);
      assert (piece + Concat(pieces[..n])) + pieces[n] == piece + (Concat(pieces[..n]) + pieces[n]);
    }
  }

  lemma {:induction false} PiecesContent(input: seq<Read>)
    ensures Concat(Pieces(input)) == Content(input)
  {
    if input != [] {
      var rest: seq<Bytes>, tail: Bytes := [], [];
      if input[0].end.More? {
        PiecesContent(input[1..]);
        rest, tail := Pieces(input[1..]), Content(input[1..]);
      }
      assert Content(input) == input[0].data + tail;
      if input[0].data == [] {
        assert Pieces(input) == rest;
      } else {
        assert Pieces(input) == [input[0].data] + rest;
        ConcatCons(input[0].data, rest);
      }
    }
  }

  /** Slice and reassemble is the identity: however the reads split the body, and
      whatever frames of other requests arrive in between, the client forwards
      the bytes that were read. */
  lemma SliceReassemble(i: ReqID, head: Head, input: seq<Read>, t: Table, wire: seq<Frame>)
    requires head.hasBody
    requires Proj(wire, i) == [RequestStart(i, head)] + ChunkFrames(i, Pieces(input)) + [RequestEnd(i)]
    ensures DispatchesOf(TableRun(t, wire).dispatched, i)
         == DispatchesOf(t.dispatched, i) + [Dispatch(i, head, Content(input))]
  {
    var u := Sent(i, head, true, Pieces(input), true, false);
    assert Proj(wire, i) == u.Frames();
    Locality(t, wire, i);
    UploadForwarded(SlotOf(t, i), u, Proj(wire, i));
    PiecesContent(input);
  }
}
