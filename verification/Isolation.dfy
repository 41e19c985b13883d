/** The theorems about a whole connection, for every earlier history of the
    client and every schedule of the connection. */
module Isolation {
  import opened Proto
  import opened Relay
  import opened HandlerShape
  import opened ServerSafety
  import opened Mailboxes
  import opened SentUploads
  import opened Forwards
  import opened System
  import opened EndToEnd
  import S = Server
  import C = Client

  // ------------------------------------------------------- reading an answer back

  /** The body bytes a caller was sent. */
  ghost function BodyBytes(trace: seq<S.Event>): Bytes {
    if trace == [] then []
    else BodyBytes(trace[..|trace| - 1]) + if trace[|trace| - 1].Body? then trace[|trace| - 1].data else []
  }

  lemma BodySnoc(trace: seq<S.Event>, e: S.Event)
    ensures BodyBytes(trace + [e]) == BodyBytes(trace) + if e.Body? then e.data else []
  {
    assert (trace + [e])[..|trace|] == trace;
  }

  lemma {:induction false} RenderAnswer(i: ReqID, status: int, headers: Headers, pieces: seq<Bytes>)
    ensures var fs := [ResponseStart(i, status, headers)] + C.AnswerChunks(i, pieces);
            && BodyBytes(Render(fs)) == Concat(pieces)
            && Render(fs) != [] && Render(fs)[0] == S.Relayed(NormalStatus(status), Relayable(headers))
  {
    var start := ResponseStart(i, status, headers);
    if pieces == [] {
      assert [start] + C.AnswerChunks(i, pieces) == [] + [start];
      RenderSnoc([], start);
      BodySnoc([], S.Relayed(NormalStatus(status), Relayable(headers)));
    } else {
      var n := |pieces| - 1;
      RenderAnswer(i, status, headers, pieces[..n]);
      var before := [start] + C.AnswerChunks(i, pieces[..n]);
      var f := ResponseChunk(i, n, Encoded(pieces[n]));
      C.AnswerChunksSnoc(i, pieces[..n], pieces[n]);
      assert pieces == pieces[..n] + [pieces[n]];
      assert [start] + C.AnswerChunks(i, pieces) == before + [f];
      RenderSnoc(before, f);
      BodySnoc(Render(before), S.Body(pieces[n]));
    }
  }

  // The handler took a response_end without an error as its last frame.
  predicate CleanEnd(consumed: seq<Frame>) {
    consumed != [] && consumed[|consumed| - 1].ResponseEnd? && consumed[|consumed| - 1].error == ""
  }

  /** What a caller may see of one forward's answer. */
  ghost predicate Shows(trace: seq<S.Event>, clean: bool, x: C.Forward) {
    && BodyBytes(trace) <= x.produced
    && (clean ==> x.eof && BodyBytes(trace) == x.produced)
    && (trace != [] && trace[0].Relayed? ==>
          && trace[0] == S.Relayed(NormalStatus(x.status), Relayable(x.headers))
          && (!x.answered ==> trace[0] == S.Relayed(502, map[]) && BodyBytes(trace) == []))
  }

  /** Any prefix of what a forward sent back shows only that forward's answer. */
  lemma PrefixShows(x: C.Forward, fs: seq<Frame>)
    requires C.Faithful(x) && fs != [] && fs <= x.out
    ensures Shows(Render(fs), CleanEnd(fs), x)
  {
    if !x.started {
      assert x.pieces == [];
      assert fs == [ResponseEnd(x.id, x.ended.value)];
      RenderRefused(fs);
      BodySnoc([], Render(fs)[0]);
      assert Render(fs) == [] + [Render(fs)[0]];
    } else {
      StartedShows(x, fs);
    }
  }

  lemma StartedShows(x: C.Forward, fs: seq<Frame>)
    requires C.Faithful(x) && x.started && fs != [] && fs <= x.out
    ensures Shows(Render(fs), CleanEnd(fs), x)
  {
    var n := |fs| - 1;
    var start := ResponseStart(x.id, x.status, x.headers);
    if n <= |x.pieces| {
      assert fs == [start] + C.AnswerChunks(x.id, x.pieces[..n]);
      ChunksShow(x, n);
    } else {
      var before := [start] + C.AnswerChunks(x.id, x.pieces);
      assert x.pieces[..|x.pieces|] == x.pieces;
      ChunksShow(x, |x.pieces|);
      var f := ResponseEnd(x.id, x.ended.value);
      assert fs == before + [f];
      EndShows(x, before, f);
    }
  }

  lemma ChunksShow(x: C.Forward, n: nat)
    requires C.Faithful(x) && x.started && n <= |x.pieces|
    ensures var fs := [ResponseStart(x.id, x.status, x.headers)] + C.AnswerChunks(x.id, x.pieces[..n]);
            && Shows(Render(fs), false, x) && BodyBytes(Render(fs)) == Concat(x.pieces[..n]) && !CleanEnd(fs)
  {
    ConcatPrefix(x.pieces[..n], x.pieces);
    RenderAnswer(x.id, x.status, x.headers, x.pieces[..n]);
    if !x.answered {
      assert Relayable(x.headers) == map[];
    }
  }

  lemma EndShows(x: C.Forward, before: seq<Frame>, f: Frame)
    requires C.Faithful(x) && x.started && f.ResponseEnd? && f == ResponseEnd(x.id, f.error) && x.ended == Some(f.error)
    requires before != [] && Shows(Render(before), false, x) && BodyBytes(Render(before)) == Concat(x.pieces)
    ensures Shows(Render(before + [f]), CleanEnd(before + [f]), x)
  {
    RenderSnoc(before, f);
    assert Render(before) + [] == Render(before);
  }

  lemma TailShows(trace: seq<S.Event>, tail: seq<S.Event>, clean: bool, x: C.Forward)
    requires trace != [] && Shows(trace, clean, x) && (tail == [] || tail == [S.Truncated])
    ensures Shows(trace + tail, clean, x)
  {
    if tail == [] {
      assert trace + tail == trace;
    } else {
      BodySnoc(trace, S.Truncated);
    }
  }

  // ------------------------------------------------------------------- isolation

  // The caller has the status of a target.
  predicate Relays(trace: seq<S.Event>) {
    trace != [] && trace[0].Relayed?
  }

  /** Forward k of this connection carries exactly handler h's request, and what
      h's caller has seen is an initial part of the answer k got. */
  ghost predicate AnsweredBy(s: System, c0: C.Client, h: nat, k: nat) {
    && h < |s.srv.handlers| && |c0.forwards| <= k < |s.cli.forwards|
    && C.DispatchOf(s.cli.forwards[k]) == WholeRequest(s, h)
    && Relays(s.srv.handlers[h].trace)
    && Shows(s.srv.handlers[h].trace, CleanEnd(s.srv.handlers[h].consumed), s.cli.forwards[k])
  }

  // Nothing, or a refusal in the server's own words.
  predicate Refused(trace: seq<S.Event>) {
    || trace == []
    || (|trace| == 1 && trace[0].Refusal? && trace[0].code == 502 && S.OwnText(trace[0].text))
    || trace == [S.Refusal(504, S.TIMED_OUT)]
  }

  /** A 502 whose text is the error of a failed answer that an earlier connection left
      behind under id i. */
  ghost predicate ShowsLeftover(c0: C.Client, i: ReqID, trace: seq<S.Event>) {
    exists k: nat :: k < |c0.forwards| && c0.forwards[k].id == i && c0.forwards[k].pc.Ending?
                     && c0.forwards[k].pc.err != "" && trace == [S.Refusal(502, c0.forwards[k].pc.err)]
  }

  /** What a caller may see: nothing, the server's own refusal, or an initial part
      of the answer to its own request, whole on a clean end. */
  ghost predicate Isolated(s: System, c0: C.Client, h: nat)
    requires h < |s.srv.handlers|
  {
    Refused(s.srv.handlers[h].trace) || exists k: nat :: AnsweredBy(s, c0, h, k)
  }

  // What was read for a handler's id since it registered, and what is on the wire,
  // is what the client sent since then.
  lemma SentIsHeard(s: System, x: S.Handler)
    requires WiresOK(s) && x.base <= |s.srv.heard|
    ensures x.base <= |s.emitted|
    ensures Proj(s.emitted[x.base..], x.up.id) == Proj(s.srv.heard[x.base..], x.up.id) + Proj(s.up, x.up.id)
  {
    assert s.emitted[x.base..] == s.srv.heard[x.base..] + s.up;
    ProjConcat(s.srv.heard[x.base..], s.up, x.up.id);
  }

  lemma ConsumedIsSent(s: System, h: nat)
    requires WiresOK(s) && h < |s.srv.handlers| && Shape(s.srv.handlers[h]) && Hears(s.srv, h) &&
             s.srv.handlers[h].consumed != []
    ensures var x := s.srv.handlers[h];
            EverRegistered(x) && x.base <= |s.emitted| && x.consumed <= Proj(s.emitted[x.base..], x.up.id)
  {
    assert s.srv.handlers[h].consumed <= Got(s.srv, h);
    SentIsHeard(s, s.srv.handlers[h]);
  }

  lemma SenderIsHolder(s: System, c0: C.Client, h: nat, k: nat)
    requires Plumbing(s, c0) && s.srv.adds < ID_SPACE && h < |s.srv.handlers| && HasId(s.srv.handlers[h])
    requires |c0.forwards| <= k < |s.cli.forwards| && s.cli.forwards[k].id == s.srv.handlers[h].up.id
    ensures C.DispatchOf(s.cli.forwards[k]) == WholeRequest(s, h) && Sender(s, h, s.srv.handlers[h].up.id)
  {
    ForwardSender(s, c0, k);
    var g :| Sender(s, g, s.cli.forwards[k].id) && C.DispatchOf(s.cli.forwards[k]) == WholeRequest(s, g);
    if g != h {
      IdsDistinct(s.srv, g, h);
    }
  }

  lemma OpenNoEnd(fs: seq<Frame>)
    requires StaysOpen(fs)
    ensures NoEnd(fs)
  {
  }

  lemma EndAfter(a: seq<Frame>, fs: seq<Frame>, e: nat)
    requires NoEnd(a) && a <= fs && e < |fs| && fs[e].ResponseEnd?
    ensures |a| <= e
  {
  }

  // A handler takes no frame after an end, so it took one forward's frames, and
  // perhaps a stray end as its last.
  lemma ConsumedTracks(c0: C.Client, consumed: seq<Frame>, fs: seq<Frame>, out: seq<Frame>)
    requires consumed != [] && StaysOpen(consumed[..|consumed| - 1]) && consumed <= fs && Tracks(c0, fs, out)
    ensures consumed <= out || (consumed[..|consumed| - 1] <= out && Stray(c0, consumed[|consumed| - 1]))
  {
    var n := |consumed| - 1;
    if !NoEnd(fs) {
      var e: nat :| EndsAt(c0, fs, out, e);
      OpenNoEnd(consumed[..n]);
      EndAfter(consumed[..n], fs, e);
      if n < e {
        assert consumed == fs[..e][..n + 1];
      } else {
        assert consumed == fs[..e + 1] && consumed[..n] == fs[..e];
      }
    }
  }

  lemma TailCases(x: S.Handler)
    requires Shape(x) && x.consumed != []
    ensures x.tail == [] || (x.consumed[0].ResponseStart? && x.tail == [S.Truncated])
  {
  }

  lemma ShowsToCaller(x: S.Handler, f: C.Forward)
    requires Shape(x) && C.Faithful(f) && x.consumed != [] && x.consumed <= f.out
    ensures Shows(x.trace, CleanEnd(x.consumed), f)
  {
    PrefixShows(f, x.consumed);
    if x.consumed[0].ResponseStart? {
      RenderOpen(x.consumed);
      TailCases(x);
    } else {
      RenderRefused(x.consumed);
      TailCases(x);
    }
    TailShows(Render(x.consumed), x.tail, CleanEnd(x.consumed), f);
  }

  lemma StrayRender(x: S.Handler)
    requires Shape(x) && |x.consumed| > 1
    requires x.consumed[|x.consumed| - 1].ResponseEnd? && x.consumed[|x.consumed| - 1].error != ""
    ensures Render(x.consumed) == Render(x.consumed[..|x.consumed| - 1]) && Render(x.consumed) != []
    ensures x.consumed[0].ResponseStart? && !CleanEnd(x.consumed)
  {
    var n := |x.consumed| - 1;
    var before := x.consumed[..n];
    assert before[0] == x.consumed[0];
    assert x.consumed == before + [x.consumed[n]];
    RenderSnoc(before, x.consumed[n]);
    assert Render(before) + [] == Render(before);
    RenderOpen(x.consumed);
  }

  // A stray end shows nothing.
  lemma StrayShows(x: S.Handler, f: C.Forward)
    requires Shape(x) && C.Faithful(f) && |x.consumed| > 1
    requires x.consumed[..|x.consumed| - 1] <= f.out
    requires x.consumed[|x.consumed| - 1].ResponseEnd? && x.consumed[|x.consumed| - 1].error != ""
    ensures Shows(x.trace, CleanEnd(x.consumed), f)
  {
    PrefixShows(f, x.consumed[..|x.consumed| - 1]);
    StrayRender(x);
    TailCases(x);
    TailShows(Render(x.consumed), x.tail, false, f);
  }

  lemma FirstIsEnd(x: S.Handler)
    requires Shape(x) && x.consumed != [] && x.consumed[0].ResponseEnd?
    ensures |x.consumed| == 1 && x.trace == [S.Refusal(502, S.RefusalText(x.consumed[0]))]
  {
    assert x.consumed[..1][0] == x.consumed[0];
    assert |x.consumed| == 1;
    RenderRefused(x.consumed);
    TailCases(x);
  }

  // A stray end that comes first is shown with its text.
  lemma FirstIsStray(x: S.Handler, c0: C.Client, i: ReqID)
    requires Shape(x) && x.consumed != [] && Stray(c0, x.consumed[0]) && x.consumed[0].id == i
    ensures ShowsLeftover(c0, i, x.trace)
  {
    FirstIsEnd(x);
    var f := x.consumed[0];
    var k :| 0 <= k < |c0.forwards| && c0.forwards[k].id == f.id && c0.forwards[k].pc == C.Ending(f.error);
    assert x.trace == [S.Refusal(502, c0.forwards[k].pc.err)];
  }

  lemma FirstIsStart(x: S.Handler)
    requires Shape(x) && x.consumed != [] && x.consumed[0].ResponseStart?
    ensures Relays(x.trace)
  {
    RenderOpen(x.consumed);
    assert x.trace[0] == Render(x.consumed)[0];
  }

  // What a forward of this connection sends first.
  lemma OwnStartsFirst(f: C.Forward)
    requires C.Faithful(f) && (f.ended.Some? ==> f.started) && f.out != []
    ensures f.out[0].ResponseStart?
  {
  }

  lemma HandlerHears(s: System, c0: C.Client, h: nat)
    requires Composed(s, c0) && s.srv.adds < ID_SPACE && h < |s.srv.handlers|
    ensures WiresOK(s) && Shape(s.srv.handlers[h]) && Hears(s.srv, h)
    ensures EverRegistered(s.srv.handlers[h]) ==> AnswerOK(s, c0, s.srv.handlers[h])
  {
  }

  lemma TookFrom(s: System, c0: C.Client, h: nat, k: nat)
    requires h < |s.srv.handlers| && AnswerOK(s, c0, s.srv.handlers[h]) && Shape(s.srv.handlers[h])
    requires |c0.forwards| <= k < |s.cli.forwards| && s.cli.forwards[k].id == s.srv.handlers[h].up.id
    requires var x := s.srv.handlers[h]; x.consumed != [] && x.consumed <= Proj(s.emitted[x.base..], x.up.id)
    ensures var consumed, out := s.srv.handlers[h].consumed, s.cli.forwards[k].out;
            && (consumed <= out || (consumed[..|consumed| - 1] <= out && Stray(c0, consumed[|consumed| - 1])))
            && (Quiescent(c0) ==> consumed <= out)
  {
    var x := s.srv.handlers[h];
    var fs := Proj(s.emitted[x.base..], x.up.id);
    assert Answers(c0, fs, s.cli.forwards[k].out);
    ConsumedTracks(c0, x.consumed, fs, s.cli.forwards[k].out);
  }

  // The handler took its own forward's frames, and perhaps a stray end.
  lemma TookOwn(s: System, c0: C.Client, h: nat, k: nat)
    requires Composed(s, c0) && s.srv.adds < ID_SPACE && h < |s.srv.handlers| && s.srv.handlers[h].consumed != []
    requires |c0.forwards| <= k < |s.cli.forwards| && s.cli.forwards[k].id == s.srv.handlers[h].up.id
    ensures var consumed, out := s.srv.handlers[h].consumed, s.cli.forwards[k].out;
            && Carries(consumed[0], s.cli.forwards[k].id)
            && (consumed <= out || (consumed[..|consumed| - 1] <= out && Stray(c0, consumed[|consumed| - 1])))
            && (Quiescent(c0) ==> consumed <= out)
  {
    HandlerHears(s, c0, h);
    ConsumedIsSent(s, h);
    ConsumedCarry(s, h);
    TookFrom(s, c0, h, k);
  }

  lemma OwnForward(s: System, c0: C.Client, h: nat, k: nat)
    requires Composed(s, c0) && h < |s.srv.handlers| && |c0.forwards| <= k < |s.cli.forwards|
    ensures Shape(s.srv.handlers[h]) && C.Faithful(s.cli.forwards[k])
    ensures s.cli.forwards[k].ended.Some? ==> s.cli.forwards[k].started
  {
  }

  lemma ShownToHandler(s: System, c0: C.Client, h: nat, k: nat)
    requires h < |s.srv.handlers| && |c0.forwards| <= k < |s.cli.forwards| && s.srv.handlers[h].consumed != []
    requires Shape(s.srv.handlers[h]) && C.Faithful(s.cli.forwards[k])
    requires s.cli.forwards[k].ended.Some? ==> s.cli.forwards[k].started
    requires C.DispatchOf(s.cli.forwards[k]) == WholeRequest(s, h)
    requires Carries(s.srv.handlers[h].consumed[0], s.cli.forwards[k].id)
    requires var consumed, out := s.srv.handlers[h].consumed, s.cli.forwards[k].out;
             consumed <= out || (consumed[..|consumed| - 1] <= out && Stray(c0, consumed[|consumed| - 1]))
    ensures AnsweredBy(s, c0, h, k) || ShowsLeftover(c0, s.srv.handlers[h].up.id, s.srv.handlers[h].trace)
    ensures s.srv.handlers[h].consumed <= s.cli.forwards[k].out ==> AnsweredBy(s, c0, h, k)
  {
    ShownBy(c0, s.srv.handlers[h], s.cli.forwards[k]);
  }

  lemma IsolatedBy(s: System, c0: C.Client, h: nat, k: nat)
    requires Composed(s, c0) && s.srv.adds < ID_SPACE && h < |s.srv.handlers| && s.srv.handlers[h].consumed != []
    requires |c0.forwards| <= k < |s.cli.forwards| && s.cli.forwards[k].id == s.srv.handlers[h].up.id
    ensures AnsweredBy(s, c0, h, k) || ShowsLeftover(c0, s.srv.handlers[h].up.id, s.srv.handlers[h].trace)
    ensures Quiescent(c0) ==> AnsweredBy(s, c0, h, k) && s.srv.handlers[h].consumed <= s.cli.forwards[k].out
  {
    OwnForward(s, c0, h, k);
    TookOwn(s, c0, h, k);
    TookHasId(s, h);
    SenderIsHolder(s, c0, h, k);
    ShownToHandler(s, c0, h, k);
  }

  lemma TookHasId(s: System, h: nat)
    requires ServerFacts(s.srv) && h < |s.srv.handlers| && s.srv.handlers[h].consumed != []
    ensures HasId(s.srv.handlers[h])
  {
    assert Shape(s.srv.handlers[h]);
  }

  // The frames a handler took carry its id.
  lemma ConsumedCarry(s: System, h: nat)
    requires h < |s.srv.handlers| && s.srv.handlers[h].base <= |s.emitted| && s.srv.handlers[h].consumed != []
    requires s.srv.handlers[h].consumed <= Proj(s.emitted[s.srv.handlers[h].base..], s.srv.handlers[h].up.id)
    ensures Carries(s.srv.handlers[h].consumed[0], s.srv.handlers[h].up.id)
  {
    var x := s.srv.handlers[h];
    var fs := Proj(s.emitted[x.base..], x.up.id);
    assert fs[0] in fs;
    ProjMember(s.emitted[x.base..], x.up.id, fs[0]);
  }

  lemma ShownBy(c0: C.Client, x: S.Handler, f: C.Forward)
    requires Shape(x) && C.Faithful(f) && (f.ended.Some? ==> f.started) && x.consumed != [] &&
             Carries(x.consumed[0], f.id)
    requires || x.consumed <= f.out
             || (x.consumed[..|x.consumed| - 1] <= f.out && Stray(c0, x.consumed[|x.consumed| - 1]))
    ensures (Relays(x.trace) && Shows(x.trace, CleanEnd(x.consumed), f)) || ShowsLeftover(c0, f.id, x.trace)
    ensures x.consumed <= f.out ==> Relays(x.trace) && Shows(x.trace, CleanEnd(x.consumed), f)
  {
    if x.consumed <= f.out {
      OwnStartsFirst(f);
      FirstIsStart(x);
      ShowsToCaller(x, f);
    } else if |x.consumed| > 1 {
      assert x.consumed[..|x.consumed| - 1][0] == x.consumed[0];
      FirstIsStart(x);
      StrayShows(x, f);
    } else {
      FirstIsStray(x, c0, f.id);
    }
  }

  // Nothing but stray ends came back.
  lemma OnlyStrays(s: System, c0: C.Client, x: S.Handler)
    requires NoAnswer(s, c0, x.up.id) && x.base <= |s.emitted|
    requires x.consumed != [] && x.consumed <= Proj(s.emitted[x.base..], x.up.id)
    ensures Stray(c0, x.consumed[0]) && !Quiescent(c0)
  {
    assert s.emitted == s.emitted[..x.base] + s.emitted[x.base..];
    ProjConcat(s.emitted[..x.base], s.emitted[x.base..], x.up.id);
    var first, rest := Proj(s.emitted[..x.base], x.up.id), Proj(s.emitted[x.base..], x.up.id);
    var all := Proj(s.emitted, x.up.id);
    assert all == first + rest && all[|first|] == rest[0] == x.consumed[0];
    assert all[|first|] in all;
  }

  lemma IsolatedWithoutForward(s: System, c0: C.Client, h: nat)
    requires Composed(s, c0) && s.srv.adds < ID_SPACE && h < |s.srv.handlers| && s.srv.handlers[h].consumed != []
    requires !HasForward(s.cli, c0, s.srv.handlers[h].up.id)
    ensures ShowsLeftover(c0, s.srv.handlers[h].up.id, s.srv.handlers[h].trace) && !Quiescent(c0)
  {
    var x := s.srv.handlers[h];
    assert Shape(x) && Hears(s.srv, h);
    ConsumedIsSent(s, h);
    ConsumedCarry(s, h);
    assert AnswerOK(s, c0, x);
    OnlyStrays(s, c0, x);
    FirstIsStray(x, c0, x.up.id);
  }

  lemma UnconsumedTrace(s: System, h: nat)
    requires ServerFacts(s.srv) && h < |s.srv.handlers| && s.srv.handlers[h].consumed == []
    ensures Refused(s.srv.handlers[h].trace)
  {
    var x := s.srv.handlers[h];
    assert Shape(x);
    assert x.trace == x.tail;
  }

  /** End-to-end isolation.  In a session with fewer than 2^32 id allocations, and
      no forward left over from an earlier connection but tame ones: a caller sees
      nothing, a refusal in the server's own words, or an initial part of the answer
      that a forward of this connection got for exactly its own request, and all of
      it when its handler ended on a response_end without an error; or else a 502
      with the error text of a failed answer left over under the same id.  If no
      leftover can send at all, the latter does not happen, and every handler that
      took a frame has such a forward. */
  lemma EndToEndIsolation(earlier: seq<C.Step>, moves: seq<Move>, h: nat)
    requires TameLeft(C.Reconnected(earlier))
    requires Exec(Init(C.Reconnected(earlier)), moves).srv.adds < ID_SPACE
    requires h < |Exec(Init(C.Reconnected(earlier)), moves).srv.handlers|
    ensures var s, c0 := Exec(Init(C.Reconnected(earlier)), moves), C.Reconnected(earlier);
            var x := s.srv.handlers[h];
            && (Isolated(s, c0, h) || ShowsLeftover(c0, x.up.id, x.trace))
            && (x.consumed == [] ==> Refused(x.trace))
            && (Quiescent(c0) && x.consumed != [] ==> exists k: nat :: AnsweredBy(s, c0, h, k))
  {
    var s, c0 := Exec(Init(C.Reconnected(earlier)), moves), C.Reconnected(earlier);
    C.ReconnectedFaithful(earlier);
    ComposedHolds(c0, moves);
    var x := s.srv.handlers[h];
    if x.consumed == [] {
      UnconsumedTrace(s, h);
    } else if HasForward(s.cli, c0, x.up.id) {
      var k :| |c0.forwards| <= k < |s.cli.forwards| && s.cli.forwards[k].id == x.up.id;
      IsolatedBy(s, c0, h, k);
    } else {
      IsolatedWithoutForward(s, c0, h);
    }
  }

  // ------------------------------------------------------------ complete answers

  /** The caller has the whole body of its own target, read to end of file. */
  ghost predicate Complete(s: System, c0: C.Client, h: nat) {
    exists k: nat :: AnsweredBy(s, c0, h, k) && s.cli.forwards[k].eof
                     && BodyBytes(s.srv.handlers[h].trace) == s.cli.forwards[k].produced
  }

  predicate TookEnd(x: S.Handler) {
    x.consumed != [] && x.consumed[|x.consumed| - 1].ResponseEnd?
  }

  lemma CleanComplete(s: System, c0: C.Client, h: nat)
    requires h < |s.srv.handlers| && Relays(s.srv.handlers[h].trace) && CleanEnd(s.srv.handlers[h].consumed)
    requires Isolated(s, c0, h) || ShowsLeftover(c0, s.srv.handlers[h].up.id, s.srv.handlers[h].trace)
    ensures Complete(s, c0, h)
  {
    var k: nat :| AnsweredBy(s, c0, h, k);
  }

  /** A clean end is a complete answer, whatever tame leftovers there are: a caller
      whose handler relayed a status and took a response_end without an error has the
      target's whole body. */
  lemma CleanEndIsComplete(earlier: seq<C.Step>, moves: seq<Move>, h: nat)
    requires TameLeft(C.Reconnected(earlier))
    requires Exec(Init(C.Reconnected(earlier)), moves).srv.adds < ID_SPACE
    requires h < |Exec(Init(C.Reconnected(earlier)), moves).srv.handlers|
    requires var x := Exec(Init(C.Reconnected(earlier)), moves).srv.handlers[h]; Relays(x.trace) && CleanEnd(x.consumed)
    ensures Complete(Exec(Init(C.Reconnected(earlier)), moves), C.Reconnected(earlier), h)
  {
    var s, c0 := Exec(Init(C.Reconnected(earlier)), moves), C.Reconnected(earlier);
    EndToEndIsolation(earlier, moves, h);
    CleanComplete(s, c0, h);
  }

  // All that a forward sent has been taken, its end included.
  lemma TakenWhole(f: C.Forward, consumed: seq<Frame>)
    requires C.Faithful(f) && consumed != [] && consumed <= f.out && consumed[|consumed| - 1].ResponseEnd?
    ensures consumed == f.out && f.ended == Some(consumed[|consumed| - 1].error)
  {
  }

  /** Complete answers, exactly.  When no leftover can send, a caller whose handler
      relayed a status and took a response_end has its target's whole body if and only
      if that response_end carried no error. */
  lemma CompleteIffCleanEnd(earlier: seq<C.Step>, moves: seq<Move>, h: nat)
    requires Quiescent(C.Reconnected(earlier))
    requires Exec(Init(C.Reconnected(earlier)), moves).srv.adds < ID_SPACE
    requires h < |Exec(Init(C.Reconnected(earlier)), moves).srv.handlers|
    requires var x := Exec(Init(C.Reconnected(earlier)), moves).srv.handlers[h]; Relays(x.trace) && TookEnd(x)
    ensures var s, c0 := Exec(Init(C.Reconnected(earlier)), moves), C.Reconnected(earlier);
            Complete(s, c0, h) <==> CleanEnd(s.srv.handlers[h].consumed)
  {
    var s, c0 := Exec(Init(C.Reconnected(earlier)), moves), C.Reconnected(earlier);
    C.ReconnectedFaithful(earlier);
    ComposedHolds(c0, moves);
    if CleanEnd(s.srv.handlers[h].consumed) {
      CleanEndIsComplete(earlier, moves, h);
    } else {
      FailedIncomplete(s, c0, h);
    }
  }

  lemma FailedIncomplete(s: System, c0: C.Client, h: nat)
    requires Composed(s, c0) && s.srv.adds < ID_SPACE && Quiescent(c0) && h < |s.srv.handlers|
    requires TookEnd(s.srv.handlers[h]) && !CleanEnd(s.srv.handlers[h].consumed)
    ensures !Complete(s, c0, h)
  {
    var x := s.srv.handlers[h];
    forall k: nat | AnsweredBy(s, c0, h, k) ensures !s.cli.forwards[k].eof {
      IsolatedBy(s, c0, h, k);
      assert C.Faithful(s.cli.forwards[k]);
      TakenWhole(s.cli.forwards[k], x.consumed);
    }
  }

  // ------------------------------------------------------------------------ uploads

  /** Within one connection no request is both pending and dispatched. */
  lemma DispatchedNotPending(earlier: seq<C.Step>, moves: seq<Move>, k: nat)
    requires Exec(Init(C.Reconnected(earlier)), moves).srv.adds < ID_SPACE
    requires |C.Reconnected(earlier).forwards| <= k < |Exec(Init(C.Reconnected(earlier)), moves).cli.forwards|
    ensures var c := Exec(Init(C.Reconnected(earlier)), moves).cli;
            c.forwards[k].id !in c.pending
  {
    var c0 := C.Reconnected(earlier);
    C.ReconnectedFaithful(earlier);
    PlumbingHolds(c0, moves);
    ForwardSender(Exec(Init(c0), moves), c0, k);
  }

  // ------------------------------------------------------------------ backpressure

  lemma HeardIsExact(s: System, h: nat)
    requires WiresOK(s) && h < |s.srv.handlers| && Hears(s.srv, h) && EverRegistered(s.srv.handlers[h])
    ensures var x := s.srv.handlers[h];
            && x.base <= |s.emitted|
            && Got(s.srv, h) <= Proj(s.emitted[x.base..], x.up.id)
            && (Registered(x) && x.closes == 0 ==>
                  Got(s.srv, h) + Proj(s.up, x.up.id) == Proj(s.emitted[x.base..], x.up.id))
  {
    SentIsHeard(s, s.srv.handlers[h]);
  }

  /** Backpressure end to end, on any client and however often ids wrap: while a
      mailbox's done is open, the frames its handler consumed, those in ch, the one
      blocked in routeResponse and those of its id still on the wire are exactly
      what the client has sent for the id since the handler registered; afterwards
      the first three are still an initial part of it.  Below 2^32 ids and without
      leftover senders the client has sent nothing for the id before. */
  lemma NothingLostEndToEnd(earlier: seq<C.Step>, moves: seq<Move>, h: nat)
    requires PacedMoves(C.Reconnected(earlier), moves)
    requires h < |Exec(Init(C.Reconnected(earlier)), moves).srv.handlers|
    requires EverRegistered(Exec(Init(C.Reconnected(earlier)), moves).srv.handlers[h])
    ensures var s := Exec(Init(C.Reconnected(earlier)), moves);
            var x := s.srv.handlers[h];
            && x.base <= |s.emitted|
            && Got(s.srv, h) <= Proj(s.emitted[x.base..], x.up.id)
            && (Registered(x) && x.closes == 0 ==>
                  Got(s.srv, h) + Proj(s.up, x.up.id) == Proj(s.emitted[x.base..], x.up.id))
            && (s.srv.adds < ID_SPACE && Quiescent(C.Reconnected(earlier)) ==>
                  Proj(s.emitted[x.base..], x.up.id) == Proj(s.emitted, x.up.id))
  {
    var s, c0 := Exec(Init(C.Reconnected(earlier)), moves), C.Reconnected(earlier);
    C.ReconnectedFaithful(earlier);
    PlumbingHolds(c0, moves);
    PacedFacts(c0, moves);
    assert Hears(s.srv, h);
    HeardIsExact(s, h);
    if s.srv.adds < ID_SPACE && Quiescent(c0) {
      ComposedHolds(c0, moves);
      NothingBefore(s, c0, h);
    }
  }

  lemma NothingBefore(s: System, c0: C.Client, h: nat)
    requires Composed(s, c0) && s.srv.adds < ID_SPACE && Quiescent(c0)
    requires h < |s.srv.handlers| && EverRegistered(s.srv.handlers[h])
    ensures var x := s.srv.handlers[h];
            x.base <= |s.emitted| && Proj(s.emitted[x.base..], x.up.id) == Proj(s.emitted, x.up.id)
  {
    var x := s.srv.handlers[h];
    assert AnswerOK(s, c0, x);
    assert s.emitted == s.emitted[..x.base] + s.emitted[x.base..];
    ProjConcat(s.emitted[..x.base], s.emitted[x.base..], x.up.id);
  }

  /** A session that hands out fewer than 2^32 ids is paced. */
  lemma FewAddsPacedMoves(c0: C.Client, moves: seq<Move>)
    requires Exec(Init(c0), moves).srv.adds < ID_SPACE
    ensures PacedMoves(c0, moves)
  {
    ServerInside(Init(c0), moves);
    FewAddsPaced(ServerSteps(Init(c0), moves));
  }
}
