/** The frame-handling loops of handleRelay and forward, run on their own. */
module RelayLoop {
  import opened Proto
  import opened Upload
  import opened Relay
  import opened HandlerShape
  import S = Server
  import C = Client

  lemma OpenStep(fs: seq<Frame>, f: Frame)
    requires fs != [] && StaysOpen(fs)
    ensures StaysOpen(fs + [f]) <==> f.ResponseChunk? && f.data.Encoded?
    ensures Render(fs + [f]) == Render(fs) + if f.ResponseChunk? && f.data.Encoded? then [S.Body(f.data.raw)] else []
  {
    RenderSnoc(fs, f);
    StaysOpenSnoc(fs, f);
  }

  lemma FirstStep(f: Frame)
    ensures StaysOpen([f]) <==> f.ResponseStart?
    ensures Render([f]) == if f.ResponseStart? then [S.Relayed(NormalStatus(f.status),
            Relayable(f.headers))] else [S.Refusal(502, S.RefusalText(f))]
  {
    RenderSnoc([], f);
    assert [] + [f] == [f];
  }

  /** handleRelay on the frames of its mailbox: it takes them up to and including
      the first that ends the response, and writes what they account for. */
  method RelayFrames(mail: seq<Frame>) returns (trace: seq<S.Event>, used: nat, ended: bool)
    ensures used <= |mail| && trace == Render(mail[..used])
    ensures !ended ==> used == |mail| && StaysOpen(mail)
    ensures ended ==> used > 0 && StaysOpen(mail[..used - 1]) && !StaysOpen(mail[..used])
  {
    if mail == [] {
      return [], 0, false;
    }
    FirstStep(mail[0]);
    assert mail[..1] == [mail[0]] && mail[..0] == [];
    if !mail[0].ResponseStart? {
      return [S.Refusal(502, S.RefusalText(mail[0]))], 1, true;
    }
    var header, code, added, order := WriteResponseHeaders(mail[0].status, mail[0].headers);
    trace, used, ended := StreamFrames(mail, [S.Relayed(code, added)]);
  }

  // Stage two, after the first frame.
  method StreamFrames(mail: seq<Frame>, first: seq<S.Event>) returns (trace: seq<S.Event>, used: nat, ended: bool)
    requires mail != [] && first == Render(mail[..1]) && StaysOpen(mail[..1])
    ensures 1 <= used <= |mail| && trace == Render(mail[..used])
    ensures !ended ==> used == |mail| && StaysOpen(mail)
    ensures ended ==> StaysOpen(mail[..used - 1]) && !StaysOpen(mail[..used])
  {
    trace, used := first, 1;
    while used < |mail|
      invariant 1 <= used <= |mail|
      invariant trace == Render(mail[..used]) && StaysOpen(mail[..used])
    {
      OpenStep(mail[..used], mail[used]);
      assert mail[..used] + [mail[used]] == mail[..used + 1];
      if !(mail[used].ResponseChunk? && mail[used].data.Encoded?) {
        return trace, used + 1, true;
      }
      trace, used := trace + [S.Body(mail[used].data.raw)], used + 1;
    }
    assert mail[..used] == mail;
    ended := false;
  }

  // The frame forward sends when its reads are over: none if they never end.
  ghost function EndOf(i: ReqID, input: seq<Read>): seq<Frame> {
    if input == [] then []
    else
      match input[0].end
      case More => EndOf(i, input[1..])
      case Eof => [ResponseEnd(i, "")]
      case Failed(err) => [ResponseEnd(i, err)]
  }

  /** All that forward sends back for an answer whose body reads as input. */
  ghost function WholeAnswer(i: ReqID, status: int, headers: Headers, input: seq<Read>): seq<Frame> {
    [ResponseStart(i, status, headers)] + C.AnswerChunks(i, Pieces(input)) + EndOf(i, input)
  }

  // The start and the first n chunks.
  ghost function AnswerStart(i: ReqID, status: int, headers: Headers, pieces: seq<Bytes>): seq<Frame> {
    [ResponseStart(i, status, headers)] + C.AnswerChunks(i, pieces)
  }

  lemma AnswerPrefix(i: ReqID, status: int, headers: Headers, input: seq<Read>, n: nat)
    requires n <= |Pieces(input)|
    ensures AnswerStart(i, status, headers, Pieces(input)[..n]) == WholeAnswer(i, status, headers, input)[..n + 1]
  {
  }

  lemma AnswerStartSnoc(i: ReqID, status: int, headers: Headers, pieces: seq<Bytes>, piece: Bytes)
    ensures AnswerStart(i, status, headers, pieces + [piece])
         == AnswerStart(i, status, headers, pieces) + [ResponseChunk(i, |pieces|, Encoded(piece))]
  {
    C.AnswerChunksSnoc(i, pieces, piece);
  }

  lemma EndStep(i: ReqID, input: seq<Read>, k: nat)
    requires k < |input|
    ensures EndOf(i, input[k..]) ==
            match input[k].end
            case More => EndOf(i, input[k + 1..])
            case Eof => [ResponseEnd(i, "")]
            case Failed(err) => [ResponseEnd(i, err)]
  {
    assert input[k..][1..] == input[k + 1..];
  }

  lemma EndLength(i: ReqID, input: seq<Read>)
    ensures |EndOf(i, input)| <= 1
  {
  }

  /** forward after httpClient.Do: the start, one chunk per non-empty read numbered
      from 0, and the end, until the connection refuses a frame. */
  method SendAnswer(i: ReqID, status: int, headers: Headers, input: seq<Read>, accepts: nat) returns (sent: seq<Frame>)
    ensures var all := WholeAnswer(i, status, headers, input);
            sent == all[..if accepts < |all| then accepts else |all|]
  {
    if accepts == 0 {
      return [];
    }
    var no, end := 0, None;
    sent, no, end := SendChunks(i, status, headers, input, accepts);
    AnswerPrefix(i, status, headers, input, no);
    EndLength(i, input);
    if end.Some? && |sent| < accepts {
      sent := sent + [ResponseEnd(i, end.value)];
    }
  }

  // The loop: no chunks went out; end is the text of the response_end, if it comes to one.
  method SendChunks(i: ReqID, status: int, headers: Headers, input: seq<Read>, accepts: nat)
    returns (sent: seq<Frame>, no: nat, end: Option<string>)
    requires accepts > 0
    ensures no <= |Pieces(input)| && no < accepts
    ensures sent == AnswerStart(i, status, headers, Pieces(input)[..no])
    ensures no < |Pieces(input)| ==> no + 1 == accepts && end.None?
    ensures no == |Pieces(input)| ==> EndOf(i, input) == if end.Some? then [ResponseEnd(i, end.value)] else []
  {
    ghost var pieces := Pieces(input);
    assert C.AnswerChunks(i, pieces[..0]) == [];
    sent, no, end := [ResponseStart(i, status, headers)], 0, None;
    var k := 0;
    assert input[0..] == input;
    while k < |input|
      invariant k <= |input| && no <= |pieces| && no < accepts
      invariant sent == AnswerStart(i, status, headers, pieces[..no])
      invariant Pieces(input[k..]) == pieces[no..]
      invariant EndOf(i, input[k..]) == EndOf(i, input)
    {
      var r := input[k];
      PieceTaken(input, k, pieces, no);
      EndStep(i, input, k);
      if r.data != [] {
        if no + 1 == accepts {
          return;
        }
        AnswerStartSnoc(i, status, headers, pieces[..no], r.data);
        sent, no := sent + [ResponseChunk(i, no, Encoded(r.data))], no + 1;
      }
      if !r.end.More? {
        end := Some(if r.end.Failed? then r.end.err else "");
        return;
      }
      k := k + 1;
    }
    assert input[k..] == [];
    assert pieces[no..] == [];
  }
}
