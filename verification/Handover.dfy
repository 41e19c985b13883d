/** The session pointer of each tunnel and the server's online counter, under every
    interleaving of hellos and closes.  A session's own teardown (signalling done,
    draining `pending`) is in module Server and touches neither. */
module Handover {
  import opened Proto

  datatype SessionPc =
    | Opening                // before handleHello
    | Bound                  // sess.tun is set
    | Replacing(prev: nat)    // swapped in, prev.close() to come
    | Kicking(c: nat)        // in prev.close(), the call c
    | Counting               // before onlineCount.Add(1)
    | Ready                  // handleHello returned
    | Ending                 // the read loop returned without a hello

  // closed: the swap in close() happened; detached: its compare-and-swap was tried.
  datatype Conn = Conn(tun: Option<string>, pc: SessionPc, closed: bool, detached: bool)

  // One call of close() on a session.
  datatype CloserPc = Called | Lost | Won | Removed | Finished
  datatype Closer = Closer(sess: nat, pc: CloserPc)

  datatype Hub = Hub(
    conns: seq<Conn>, closers: seq<Closer>,
    current: map<string, nat>,      // tunnels whose session pointer is not nil
    online: int,
    latest: map<string, nat>,       // the last session swapped in
    takeovers: nat)                 // swaps that found a session

  const NEW_HUB: Hub := Hub([], [], map[], 0, map[], 0)

  datatype Step =
    | Open
    | Bind(s: nat, t: string)   // Register succeeded with tunnel t; sess.tun = t
    | SwapIn(s: nat)
    | Kick(s: nat)
    | KickReturns(s: nat)
    | Count(s: nat)
    | Hangup(s: nat)            // the read loop returns and closes its session
    | Disconnect(s: nat)        // anyone who read the pointer closes the session
    | CloseSwap(c: nat)
    | Detach(c: nat)            // CompareAndSwap(s, nil)
    | Uncount(c: nat)           // onlineCount.Add(-1)

  predicate SwappedIn(x: Conn) {
    !x.pc.Opening? && !x.pc.Bound? && !x.pc.Ending?
  }

  function SetConn(b: Hub, s: nat, x: Conn): Hub
    requires s < |b.conns|
  {
    b.(conns := b.conns[s := x])
  }

  function SetCloser(b: Hub, c: nat, pc: CloserPc): Hub
    requires c < |b.closers|
  {
    b.(closers := b.closers[c := b.closers[c].(pc := pc)])
  }

  function AddCloser(b: Hub, s: nat): Hub {
    b.(closers := b.closers + [Closer(s, Called)])
  }

  function DoSwapIn(b: Hub, s: nat): Hub
    requires s < |b.conns| && b.conns[s].tun.Some?
  {
    var t, x := b.conns[s].tun.value, b.conns[s];
    var b' := b.(current := b.current[t := s], latest := b.latest[t := s]);
    if t in b.current && b.current[t] != s
    then SetConn(b', s, x.(pc := Replacing(b.current[t]))).(takeovers := b.takeovers + 1)
    else SetConn(b', s, x.(pc := Counting))
  }

  function DoDetach(b: Hub, c: nat): Hub
    requires c < |b.closers| && b.closers[c].sess < |b.conns|
  {
    var s := b.closers[c].sess;
    var x := b.conns[s];
    var b' := SetConn(b, s, x.(detached := true));
    if x.tun.Some? && x.tun.value in b.current && b.current[x.tun.value] == s
    then SetCloser(b', c, Removed).(current := b.current - {x.tun.value})
    else SetCloser(b', c, Finished)
  }

  function Do(b: Hub, st: Step): Hub {
    match st
    case Open => b.(conns := b.conns + [Conn(None, Opening, false, false)])
    case Bind(s, t) =>
      if s < |b.conns| && b.conns[s].pc.Opening? then SetConn(b, s, b.conns[s].(tun := Some(t), pc := Bound)) else b
    case SwapIn(s) =>
      if s < |b.conns| && b.conns[s].pc.Bound? && b.conns[s].tun.Some? then DoSwapIn(b, s) else b
    case Kick(s) =>
      if s < |b.conns| && b.conns[s].pc.Replacing?
      then AddCloser(SetConn(b, s, b.conns[s].(pc := Kicking(|b.closers|))), b.conns[s].pc.prev)
      else b
    case KickReturns(s) =>
      if s < |b.conns| && b.conns[s].pc.Kicking? && b.conns[s].pc.c < |b.closers|
         && (b.closers[b.conns[s].pc.c].pc.Lost? || b.closers[b.conns[s].pc.c].pc.Finished?)
      then SetConn(b, s, b.conns[s].(pc := Counting))
      else b
    case Count(s) =>
      if s < |b.conns| && b.conns[s].pc.Counting?
      then SetConn(b, s, b.conns[s].(pc := Ready)).(online := b.online + 1)
      else b
    case Hangup(s) =>
      if s < |b.conns| && (b.conns[s].pc.Opening? || b.conns[s].pc.Ready? || b.conns[s].pc.Ending?)
      then AddCloser(SetConn(b, s, if b.conns[s].pc.Opening? then b.conns[s].(pc := Ending) else b.conns[s]), s)
      else b
    case Disconnect(s) => if s < |b.conns| && SwappedIn(b.conns[s]) then AddCloser(b, s) else b
    case CloseSwap(c) =>
      if c < |b.closers| && b.closers[c].pc.Called? && b.closers[c].sess < |b.conns| then
        var s := b.closers[c].sess;
        if b.conns[s].closed then SetCloser(b, c, Lost)
        else SetCloser(SetConn(b, s, b.conns[s].(closed := true)), c, Won)
      else b
    case Detach(c) =>
      if c < |b.closers| && b.closers[c].pc.Won? && b.closers[c].sess < |b.conns| then DoDetach(b, c) else b
    case Uncount(c) =>
      if c < |b.closers| && b.closers[c].pc.Removed? then SetCloser(b, c, Finished).(online := b.online - 1) else b
  }

  function Exec(b: Hub, steps: seq<Step>): Hub {
    if steps == [] then b else Do(Exec(b, steps[..|steps| - 1]), steps[|steps| - 1])
  }

  // ---------------------------------------------------------------- the pointer

  ghost predicate ConnOK(b: Hub, s: nat)
    requires s < |b.conns|
  {
    var x := b.conns[s];
    && (SwappedIn(x) || x.pc.Bound? ==> x.tun.Some?)
    && (x.pc.Opening? || x.pc.Bound? ==> !x.closed && !x.detached)
    && (x.pc.Opening? || x.pc.Bound? || x.detached ==> forall t :: t in b.current ==> b.current[t] != s)
    && (x.pc.Replacing? ==> x.pc.prev < |b.conns| && SwappedIn(b.conns[x.pc.prev]))
    && (x.pc.Kicking? ==> x.pc.c < |b.closers|)
  }

  ghost predicate PointersOK(b: Hub) {
    forall t :: t in b.current ==>
      && t in b.latest && b.current[t] == b.latest[t]
      && b.current[t] < |b.conns| && SwappedIn(b.conns[b.current[t]]) && b.conns[b.current[t]].tun == Some(t)
  }

  ghost predicate ClosersOK(b: Hub) {
    forall c :: 0 <= c < |b.closers| ==>
      && b.closers[c].sess < |b.conns|
      && !b.conns[b.closers[c].sess].pc.Opening? && !b.conns[b.closers[c].sess].pc.Bound?
      && (b.closers[c].pc.Removed? || b.closers[c].pc.Finished? ==> b.conns[b.closers[c].sess].detached)
  }

  ghost predicate HubOK(b: Hub) {
    && (forall s :: 0 <= s < |b.conns| ==> ConnOK(b, s))
    && PointersOK(b) && ClosersOK(b)
  }

  lemma SwapInOK(b: Hub, s: nat)
    requires HubOK(b) && s < |b.conns| && b.conns[s].pc.Bound?
    ensures b.conns[s].tun.Some? && HubOK(DoSwapIn(b, s))
  {
    assert ConnOK(b, s);
    var b' := DoSwapIn(b, s);
    forall k | 0 <= k < |b'.conns| ensures ConnOK(b', k) {
      assert ConnOK(b, k);
    }
  }

  lemma DetachOK(b: Hub, c: nat)
    requires HubOK(b) && c < |b.closers| && b.closers[c].pc.Won?
    ensures HubOK(DoDetach(b, c))
  {
    var b', s := DoDetach(b, c), b.closers[c].sess;
    forall k | 0 <= k < |b'.conns| ensures ConnOK(b', k) {
      assert ConnOK(b, k);
      if k == s {
        forall t | t in b'.current ensures b'.current[t] != s {
          assert b.conns[b.current[t]].tun == Some(t);
        }
      }
    }
  }

  lemma OpenOK(b: Hub)
    requires HubOK(b)
    ensures HubOK(Do(b, Open))
  {
    var b' := Do(b, Open);
    forall k | 0 <= k < |b'.conns| ensures ConnOK(b', k) {
      if k < |b.conns| { assert ConnOK(b, k); }
    }
  }

  lemma HelloOK(b: Hub, st: Step)
    requires HubOK(b) && (st.Bind? || st.KickReturns? || st.Count?)
    ensures HubOK(Do(b, st))
  {
    var b' := Do(b, st);
    forall k | 0 <= k < |b'.conns| ensures ConnOK(b', k) {
      assert ConnOK(b, k);
    }
  }

  lemma KickOK(b: Hub, s: nat)
    requires HubOK(b)
    ensures HubOK(Do(b, Kick(s)))
  {
    var b' := Do(b, Kick(s));
    if s < |b.conns| {
      assert ConnOK(b, s);
    }
    forall k | 0 <= k < |b'.conns| ensures ConnOK(b', k) {
      assert ConnOK(b, k);
    }
  }

  lemma CallCloseOK(b: Hub, st: Step)
    requires HubOK(b) && (st.Hangup? || st.Disconnect?)
    ensures HubOK(Do(b, st))
  {
    var b' := Do(b, st);
    forall k | 0 <= k < |b'.conns| ensures ConnOK(b', k) {
      assert ConnOK(b, k);
    }
  }

  lemma CloseSwapConn(b: Hub, c: nat, k: nat)
    requires HubOK(b) && k < |b.conns|
    ensures |Do(b, CloseSwap(c)).conns| == |b.conns| && ConnOK(Do(b, CloseSwap(c)), k)
  {
    assert ConnOK(b, k);
  }

  lemma CloseSwapClosers(b: Hub, c: nat)
    requires HubOK(b)
    ensures PointersOK(Do(b, CloseSwap(c))) && ClosersOK(Do(b, CloseSwap(c)))
  {
  }

  lemma CloseSwapOK(b: Hub, c: nat)
    requires HubOK(b)
    ensures HubOK(Do(b, CloseSwap(c)))
  {
    CloseSwapClosers(b, c);
    forall k | 0 <= k < |Do(b, CloseSwap(c)).conns| ensures ConnOK(Do(b, CloseSwap(c)), k) {
      CloseSwapSize(b, c);
      CloseSwapConn(b, c, k);
    }
  }

  lemma CloseSwapSize(b: Hub, c: nat)
    ensures |Do(b, CloseSwap(c)).conns| == |b.conns|
  {
  }

  lemma UncountOK(b: Hub, c: nat)
    requires HubOK(b)
    ensures HubOK(Do(b, Uncount(c)))
  {
    var b' := Do(b, Uncount(c));
    forall k | 0 <= k < |b'.conns| ensures ConnOK(b', k) {
      assert ConnOK(b, k);
    }
  }

  lemma StepOK(b: Hub, st: Step)
    requires HubOK(b)
    ensures HubOK(Do(b, st))
  {
    match st
    case SwapIn(s) => if s < |b.conns| && b.conns[s].pc.Bound? { SwapInOK(b, s); }
    case Detach(c) => if c < |b.closers| && b.closers[c].pc.Won? { DetachOK(b, c); }
    case Open => OpenOK(b);
    case Bind(_, _) => HelloOK(b, st);
    case Kick(s) => KickOK(b, s);
    case KickReturns(_) => HelloOK(b, st);
    case Count(_) => HelloOK(b, st);
    case Hangup(_) => CallCloseOK(b, st);
    case Disconnect(_) => CallCloseOK(b, st);
    case CloseSwap(c) => CloseSwapOK(b, c);
    case Uncount(c) => UncountOK(b, c);
  }

  lemma {:induction false} HubReachable(steps: seq<Step>)
    ensures HubOK(Exec(NEW_HUB, steps))
  {
    if steps != [] {
      HubReachable(steps[..|steps| - 1]);
      StepOK(Exec(NEW_HUB, steps[..|steps| - 1]), steps[|steps| - 1]);
    }
  }

  /** Last connect wins: a tunnel's session pointer is nil or the session most
      recently swapped in, and never a session whose close has got as far as the
      compare-and-swap. */
  lemma LastConnectWins(steps: seq<Step>, t: string)
    requires t in Exec(NEW_HUB, steps).current
    ensures var b := Exec(NEW_HUB, steps);
            && t in b.latest && b.current[t] == b.latest[t]
            && b.current[t] < |b.conns| && b.conns[b.current[t]].tun == Some(t) && !b.conns[b.current[t]].detached
  {
    HubReachable(steps);
    var b := Exec(NEW_HUB, steps);
    assert ConnOK(b, b.current[t]);
  }

  /** A session whose close() has returned is never current again: not now, and
      not after any further steps. */
  lemma ClosedNeverCurrent(steps: seq<Step>, more: seq<Step>, c: nat)
    requires c < |Exec(NEW_HUB, steps).closers| && Exec(NEW_HUB, steps).closers[c].pc.Finished?
    ensures forall t :: t in Exec(Exec(NEW_HUB, steps), more).current ==>
              Exec(Exec(NEW_HUB, steps), more).current[t] != Exec(NEW_HUB, steps).closers[c].sess
  {
    HubReachable(steps);
    DetachedStays(Exec(NEW_HUB, steps), more, Exec(NEW_HUB, steps).closers[c].sess);
    var b := Exec(Exec(NEW_HUB, steps), more);
    assert ConnOK(b, Exec(NEW_HUB, steps).closers[c].sess);
  }

  lemma {:induction false} DetachedStays(b: Hub, more: seq<Step>, s: nat)
    requires HubOK(b) && s < |b.conns| && b.conns[s].detached
    ensures HubOK(Exec(b, more)) && s < |Exec(b, more).conns| && Exec(b, more).conns[s].detached
  {
    if more != [] {
      DetachedStays(b, more[..|more| - 1], s);
      var last := Exec(b, more[..|more| - 1]);
      StepOK(last, more[|more| - 1]);
      DetachedStep(last, more[|more| - 1], s);
    }
  }

  lemma DetachedStep(b: Hub, st: Step, s: nat)
    requires s < |b.conns| && b.conns[s].detached
    ensures s < |Do(b, st).conns| && Do(b, st).conns[s].detached
  {
  }

  /** The pointer of a tunnel changes only when a session is swapped in for it, or
      to nil by a close of the very session it held. */
  lemma OnlyOwnCloseRemoves(b: Hub, st: Step, t: string)
    requires HubOK(b) && t in b.current
    requires t !in Do(b, st).current || Do(b, st).current[t] != b.current[t]
    ensures (st.SwapIn? && t in Do(b, st).current && Do(b, st).current[t] == st.s)
         || (st.Detach? && t !in Do(b, st).current && b.closers[st.c].sess == b.current[t])
  {
  }

  // ----------------------------------------------------------------- the counter

  // Swapped in, and not yet added to onlineCount.
  predicate Uncounted(x: Conn) {
    x.pc.Replacing? || x.pc.Kicking? || x.pc.Counting?
  }

  function Hellos(conns: seq<Conn>): nat {
    if conns == [] then 0
    else Hellos(conns[..|conns| - 1]) + if Uncounted(conns[|conns| - 1]) then 1 else 0
  }

  // Removed from the pointer, and not yet subtracted.
  function Removals(closers: seq<Closer>): nat {
    if closers == [] then 0
    else Removals(closers[..|closers| - 1]) + if closers[|closers| - 1].pc.Removed? then 1 else 0
  }

  lemma {:induction false} HellosUpdate(conns: seq<Conn>, s: nat, x: Conn)
    requires s < |conns|
    ensures Hellos(conns[s := x])
         == Hellos(conns) - (if Uncounted(conns[s]) then 1 else 0) + if Uncounted(x) then 1 else 0
  {
    var n := |conns| - 1;
    assert conns[s := x][..n] == if s == n then conns[..n] else conns[..n][s := x];
    if s < n {
      HellosUpdate(conns[..n], s, x);
    }
  }

  lemma {:induction false} RemovalsUpdate(closers: seq<Closer>, c: nat, x: Closer)
    requires c < |closers|
    ensures Removals(closers[c := x])
         == Removals(closers) - (if closers[c].pc.Removed? then 1 else 0) + if x.pc.Removed? then 1 else 0
  {
    var n := |closers| - 1;
    assert closers[c := x][..n] == if c == n then closers[..n] else closers[..n][c := x];
    if c < n {
      RemovalsUpdate(closers[..n], c, x);
    }
  }

  ghost predicate Balanced(b: Hub) {
    b.online == |b.current| + b.takeovers - Hellos(b.conns) + Removals(b.closers)
  }

  lemma SwappedSize(b: Hub, t: string, s: nat)
    ensures |b.current[t := s]| == |b.current| + if t in b.current then 0 else 1
  {
    assert b.current[t := s].Keys == b.current.Keys + {t};
    assert |b.current.Keys + {t}| == |b.current.Keys| + if t in b.current then 0 else 1 by {
      if t in b.current { assert b.current.Keys + {t} == b.current.Keys; }
    }
  }

  lemma SwapInBalanced(b: Hub, s: nat)
    requires HubOK(b) && Balanced(b) && s < |b.conns| && b.conns[s].pc.Bound? && b.conns[s].tun.Some?
    ensures Balanced(DoSwapIn(b, s))
  {
    assert ConnOK(b, s);
    var t := b.conns[s].tun.value;
    SwappedSize(b, t, s);
    if t in b.current {
      HellosUpdate(b.conns, s, b.conns[s].(pc := Replacing(b.current[t])));
    } else {
      HellosUpdate(b.conns, s, b.conns[s].(pc := Counting));
    }
  }

  lemma DetachBalanced(b: Hub, c: nat)
    requires HubOK(b) && Balanced(b) && c < |b.closers| && b.closers[c].pc.Won?
    ensures Balanced(DoDetach(b, c))
  {
    var s := b.closers[c].sess;
    var x := b.conns[s];
    HellosUpdate(b.conns, s, x.(detached := true));
    RemovalsUpdate(b.closers, c, b.closers[c].(pc := Removed));
    RemovalsUpdate(b.closers, c, b.closers[c].(pc := Finished));
    if x.tun.Some? && x.tun.value in b.current && b.current[x.tun.value] == s {
      assert (b.current - {x.tun.value}).Keys == b.current.Keys - {x.tun.value};
    }
  }

  lemma RemovalsSnoc(closers: seq<Closer>, x: Closer)
    ensures Removals(closers + [x]) == Removals(closers) + if x.pc.Removed? then 1 else 0
  {
    assert (closers + [x])[..|closers|] == closers;
  }

  lemma HellosSnoc(conns: seq<Conn>, x: Conn)
    ensures Hellos(conns + [x]) == Hellos(conns) + if Uncounted(x) then 1 else 0
  {
    assert (conns + [x])[..|conns|] == conns;
  }

  lemma HelloBalanced(b: Hub, st: Step)
    requires Balanced(b) && (st.Open? || st.Bind? || st.Kick? || st.KickReturns? || st.Count?)
    ensures Balanced(Do(b, st))
  {
    var b' := Do(b, st);
    if st.Open? {
      HellosSnoc(b.conns, Conn(None, Opening, false, false));
    } else if st.s < |b.conns| {
      HellosUpdate(b.conns, st.s, b'.conns[st.s]);
      assert b'.conns == b.conns[st.s := b'.conns[st.s]];
      if st.Kick? && b.conns[st.s].pc.Replacing? {
        RemovalsSnoc(b.closers, Closer(b.conns[st.s].pc.prev, Called));
      }
    }
  }

  lemma CallCloseBalanced(b: Hub, st: Step)
    requires Balanced(b) && (st.Hangup? || st.Disconnect?)
    ensures Balanced(Do(b, st))
  {
    RemovalsSnoc(b.closers, Closer(st.s, Called));
    if st.s < |b.conns| {
      HellosUpdate(b.conns, st.s, b.conns[st.s].(pc := Ending));
      assert b.conns[st.s := b.conns[st.s]] == b.conns;
    }
  }

  lemma CloserBalanced(b: Hub, st: Step)
    requires Balanced(b) && (st.CloseSwap? || st.Uncount?)
    ensures Balanced(Do(b, st))
  {
    if st.c < |b.closers| {
      RemovalsUpdate(b.closers, st.c, Do(b, st).closers[st.c]);
      var s := b.closers[st.c].sess;
      if s < |b.conns| {
        HellosUpdate(b.conns, s, b.conns[s].(closed := true));
      }
    }
  }

  lemma StepBalanced(b: Hub, st: Step)
    requires HubOK(b) && Balanced(b)
    ensures Balanced(Do(b, st))
  {
    match st
    case SwapIn(s) => if s < |b.conns| && b.conns[s].pc.Bound? && b.conns[s].tun.Some? { SwapInBalanced(b, s); }
    case Detach(c) => if c < |b.closers| && b.closers[c].pc.Won? { DetachBalanced(b, c); }
    case Open => HelloBalanced(b, st);
    case Bind(_, _) => HelloBalanced(b, st);
    case Kick(_) => HelloBalanced(b, st);
    case KickReturns(_) => HelloBalanced(b, st);
    case Count(_) => HelloBalanced(b, st);
    case Hangup(_) => CallCloseBalanced(b, st);
    case Disconnect(_) => CallCloseBalanced(b, st);
    case CloseSwap(_) => CloserBalanced(b, st);
    case Uncount(_) => CloserBalanced(b, st);
  }

  lemma {:induction false} BalancedReachable(steps: seq<Step>)
    ensures Balanced(Exec(NEW_HUB, steps))
  {
    if steps != [] {
      var before := steps[..|steps| - 1];
      BalancedReachable(before);
      HubReachable(before);
      StepBalanced(Exec(NEW_HUB, before), steps[|steps| - 1]);
    }
  }

  // No handleHello and no close() is between its pointer update and its counter update.
  predicate CountersSettled(b: Hub) {
    (forall s :: 0 <= s < |b.conns| ==> !Uncounted(b.conns[s])) &&
    (forall c :: 0 <= c < |b.closers| ==> !b.closers[c].pc.Removed?)
  }

  lemma {:induction false} SettledCounts(conns: seq<Conn>, closers: seq<Closer>)
    requires forall s :: 0 <= s < |conns| ==> !Uncounted(conns[s])
    requires forall c :: 0 <= c < |closers| ==> !closers[c].pc.Removed?
    ensures Hellos(conns) == 0 && Removals(closers) == 0
  {
    if conns != [] {
      SettledCounts(conns[..|conns| - 1], closers);
    } else if closers != [] {
      SettledCounts(conns, closers[..|closers| - 1]);
    }
  }

  /** The counter drifts by exactly one per takeover: at rest it is the number of
      online tunnels plus the number of takeovers so far, so it is right exactly
      on runs without a takeover. */
  lemma OnlineCountDrift(steps: seq<Step>)
    requires CountersSettled(Exec(NEW_HUB, steps))
    ensures var b := Exec(NEW_HUB, steps);
            && b.online == |b.current| + b.takeovers
            && (b.online == |b.current| <==> b.takeovers == 0)
  {
    BalancedReachable(steps);
    var b := Exec(NEW_HUB, steps);
    SettledCounts(b.conns, b.closers);
  }
}
