/** What net/http makes of what a relay handler writes: a status that WriteHeader does
    not take panics and resets the connection, an informational one is followed by a
    final 200 with the first write or the handler's return, and some statuses allow
    no body. */
module Wire {
  import opened Proto
  import opened Server
  import opened HandlerShape
  import opened ServerSafety

  datatype OnWire = Interim(status: int) | Final(status: int) | Data(data: Bytes) | Reset

  predicate Panics(status: int) {
    status < 100 || status > 999
  }

  // Informational, and so not the answer; 101 is taken as one.
  predicate IsInterim(status: int) {
    100 <= status < 200 && status != 101
  }

  predicate AllowsBody(status: int) {
    status >= 200 && status != 204 && status != 304
  }

  // After the final status.
  function Rest(events: seq<Event>, status: int): seq<OnWire> {
    if events == [] then []
    else
      Rest(events[..|events| - 1], status) +
      match events[|events| - 1]
      case Body(data) => if AllowsBody(status) then [Data(data)] else []
      case Truncated => [Reset]
      case _ => []
  }

  /** A returned handler's trace on the wire. */
  function Written(trace: seq<Event>): seq<OnWire>
    requires trace != []
  {
    match trace[0]
    case Refusal(code, _) => [Final(code)] + Rest(trace[1..], code)
    case Relayed(status, _) =>
      if Panics(status) then [Reset]
      else if !IsInterim(status) then [Final(status)] + Rest(trace[1..], status)
      else if trace[1..] == [Truncated] then [Interim(status), Reset]
      else [Interim(status), Final(200)] + Rest(trace[1..], 200)
    case _ => []
  }

  function Finals(ws: seq<OnWire>): nat {
    if ws == [] then 0 else Finals(ws[..|ws| - 1]) + if ws[|ws| - 1].Final? then 1 else 0
  }

  lemma {:induction false} FinalsAppend(a: seq<OnWire>, b: seq<OnWire>)
    ensures Finals(a + b) == Finals(a) + Finals(b)
  {
    if b == [] {
      assert a + b == a;
    } else {
      FinalsAppend(a, b[..|b| - 1]);
      assert (a + b)[..|a + b| - 1] == a + b[..|b| - 1];
    }
  }

  lemma {:induction false} RestHasNoFinal(events: seq<Event>, status: int)
    ensures Finals(Rest(events, status)) == 0
  {
    if events != [] {
      RestHasNoFinal(events[..|events| - 1], status);
      var last := Rest(events, status)[|Rest(events[..|events| - 1], status)|..];
      assert Rest(events, status) == Rest(events[..|events| - 1], status) + last;
      FinalsAppend(Rest(events[..|events| - 1], status), last);
      assert last == [] || (|last| == 1 && !last[0].Final? && last[..0] == []);
    }
  }

  /** The handler gives its caller a final status. */
  predicate Concludes(trace: seq<Event>) {
    && trace != []
    && (trace[0].Relayed? ==>
          !Panics(trace[0].status) && !(IsInterim(trace[0].status) && trace[1..] == [Truncated]))
  }

  lemma FinalsTwo(a: OnWire, b: OnWire)
    ensures Finals([a]) == (if a.Final? then 1 else 0)
    ensures Finals([a, b]) == (if a.Final? then 1 else 0) + if b.Final? then 1 else 0
  {
    assert [a][..0] == [] && [a, b][..1] == [a];
  }

  lemma FinalsOf(trace: seq<Event>)
    requires WellFormed(trace)
    ensures Finals(Written(trace)) == if Concludes(trace) then 1 else 0
  {
    match trace[0]
    case Refusal(code, _) => FirstFinal([Final(code)], trace[1..], code);
    case Relayed(status, _) =>
      if !Panics(status) && !IsInterim(status) {
        FirstFinal([Final(status)], trace[1..], status);
      } else if !Panics(status) && trace[1..] != [Truncated] {
        FirstFinal([Interim(status), Final(200)], trace[1..], 200);
      } else {
        FinalsTwo(Reset, Reset);
        FinalsTwo(Interim(status), Reset);
      }
    case _ =>
  }

  lemma FirstFinal(head: seq<OnWire>, events: seq<Event>, status: int)
    requires head == [Final(status)] || (|head| == 2 && head[0].Interim? && head[1] == Final(status))
    ensures Finals(head + Rest(events, status)) == 1
  {
    RestHasNoFinal(events, status);
    FinalsAppend(head, Rest(events, status));
    if |head| == 2 {
      FinalsTwo(head[0], head[1]);
      assert head == [head[0], head[1]];
    } else {
      FinalsTwo(Final(status), Final(status));
    }
  }

  /** One final status, exactly when: whatever the client sends, a handler that has
      returned has given its caller one final status if the status it relays, if any,
      is one that WriteHeader takes and no cut came right after an informational one,
      and none otherwise. */
  lemma OneFinalStatus(steps: seq<Step>, h: nat)
    requires At(Exec(NEW_SESSION, steps), h, Gone)
    ensures var trace := Exec(NEW_SESSION, steps).handlers[h].trace;
            trace != [] && Finals(Written(trace)) == if Concludes(trace) then 1 else 0
  {
    AlwaysReachable(steps);
    var x := Exec(NEW_SESSION, steps).handlers[h];
    assert Shape(x);
    ShapeWellFormed(x);
    FinalsOf(x.trace);
  }
}
