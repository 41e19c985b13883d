/** The frames of the tunnel protocol and the arithmetic of request ids.

    A frame is a sum type: the source's flat struct carries a `type` string and
    only the fields that belong to it.  Base64 is a library call; a payload is
    either the encoding of some bytes, or a string that does not decode. */
module Proto {

  // Request ids are uint32 values: addition wraps at 2^32.
  const ID_SPACE: int := 0x1_0000_0000

  type ReqID = i: int | 0 <= i < ID_SPACE

  type Byte = b: int | 0 <= b < 256
  type Bytes = seq<Byte>
  type Headers = map<string, seq<string>>

  // Raw body bytes per request_chunk / response_chunk frame.
  const CHUNK_SIZE: int := 256 * 1024

  // Frames a response mailbox buffers before routeResponse blocks.
  const MAILBOX_CAP: int := 16

  datatype Option<+T> = None | Some(value: T)

  datatype Payload = Encoded(raw: Bytes) | Undecodable

  // The routing part of a request_start frame.
  datatype Head = Head(verb: string, path: string, query: string, headers: Headers, hasBody: bool)

  datatype Frame =
    // server to client
    | RequestStart(id: ReqID, head: Head)
    | RequestChunk(id: ReqID, no: nat, data: Payload)
    | RequestEnd(id: ReqID)
    | Cancel(id: ReqID)
    // client to server
    | ResponseStart(id: ReqID, status: int, headers: Headers)
    | ResponseChunk(id: ReqID, no: nat, data: Payload)
    | ResponseEnd(id: ReqID, error: string)
    // every frame that belongs to no request: ping, pong, stats, unknown kinds
    | Control

  predicate IsReply(f: Frame) {
    f.ResponseStart? || f.ResponseChunk? || f.ResponseEnd?
  }

  // What a Read call reports next to the bytes it returns.
  datatype ReadEnd = More | Eof | Failed(err: string)

  // atomic.Uint32.Add(1)
  function Succ(i: ReqID): ReqID {
    (i + 1) % ID_SPACE
  }

  /** Ids of increments less than 2^32 apart are distinct across the wrap. */
  lemma TicksDistinct(t: nat, u: nat)
    requires -ID_SPACE < t - u < ID_SPACE
    ensures t % ID_SPACE == u % ID_SPACE ==> t == u
  {
    assert t - u == ID_SPACE * (t / ID_SPACE - u / ID_SPACE) + (t % ID_SPACE - u % ID_SPACE);
  }

  predicate Carries(f: Frame, i: ReqID) {
    !f.Control? && f.id == i
  }

  /** The frames of request i, in order. */
  function Proj(fs: seq<Frame>, i: ReqID): seq<Frame> {
    if fs == [] then []
    else Proj(fs[..|fs| - 1], i) + if Carries(fs[|fs| - 1], i) then [fs[|fs| - 1]] else []
  }

  lemma ProjSnoc(fs: seq<Frame>, f: Frame, i: ReqID)
    ensures Proj(fs + [f], i) == Proj(fs, i) + if Carries(f, i) then [f] else []
  {
    assert (fs + [f])[..|fs|] == fs;
  }

  lemma {:induction false} ProjConcat(a: seq<Frame>, b: seq<Frame>, i: ReqID)
    ensures Proj(a + b, i) == Proj(a, i) + Proj(b, i)
  {
    if b == [] {
      assert a + b == a;
    } else {
      var n := |b| - 1;
      var last := if Carries(b[n], i) then [b[n]] else [];
      ProjConcat(a, b[..n], i);
      assert a + b == (a + b[..n]) + [b[n]];
      ProjSnoc(a + b[..n], b[n], i);
      assert Proj(b, i) == Proj(b[..n], i) + last;
      assert (Proj(a, i) + Proj(b[..n], i)) + last == Proj(a, i) + (Proj(b[..n], i) + last);
    }
  }

  lemma ProjPrefix(a: seq<Frame>, b: seq<Frame>, i: ReqID)
    requires a <= b
    ensures Proj(a, i) <= Proj(b, i)
  {
    assert b == a + b[|a|..];
    ProjConcat(a, b[|a|..], i);
  }

  lemma {:induction false} ProjMember(fs: seq<Frame>, i: ReqID, f: Frame)
    requires f in Proj(fs, i)
    ensures f in fs && Carries(f, i)
  {
    if fs != [] && f in Proj(fs[..|fs| - 1], i) {
      ProjMember(fs[..|fs| - 1], i, f);
    }
  }

  /** The bytes of a sequence of pieces, in order. */
  function Concat(pieces: seq<Bytes>): Bytes {
    if pieces == [] then [] else Concat(pieces[..|pieces| - 1]) + pieces[|pieces| - 1]
  }

  lemma ConcatSnoc(pieces: seq<Bytes>, piece: Bytes)
    ensures Concat(pieces + [piece]) == Concat(pieces) + piece
  {
    assert (pieces + [piece])[..|pieces|] == pieces;
  }

  lemma {:induction false} ConcatPrefix(a: seq<Bytes>, b: seq<Bytes>)
    requires a <= b
    ensures Concat(a) <= Concat(b)
    decreases |b|
  {
    if |a| < |b| {
      ConcatPrefix(a, b[..|b| - 1]);
    } else {
      assert a == b;
    }
  }
}
