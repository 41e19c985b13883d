/** Runs of the hub in which one client after another takes the same tunnel over:
    the online counter is off by as much as one likes. */
module Takeovers {
  import opened Proto
  import opened Fold
  import opened Handover

  lemma HubSnoc(b: Hub, steps: seq<Step>, st: Step)
    ensures Exec(b, steps + [st]) == Do(Exec(b, steps), st)
  {
    assert (steps + [st])[..|steps|] == steps;
  }

  lemma {:induction false} HubIsRun(next: (Hub, Step) -> Hub, b: Hub, steps: seq<Step>)
    requires forall d: Hub, st: Step :: next(d, st) == Do(d, st)
    ensures Exec(b, steps) == Run(next, b, steps)
  {
    if steps != [] {
      HubIsRun(next, b, steps[..|steps| - 1]);
    }
  }

  lemma HubAppend(b: Hub, first: seq<Step>, second: seq<Step>)
    ensures Exec(b, first + second) == Exec(Exec(b, first), second)
  {
    var next := (d: Hub, st: Step) => Do(d, st);
    var exec := (d: Hub, steps: seq<Step>) => Exec(d, steps);
    forall d: Hub, steps: seq<Step> ensures exec(d, steps) == Run(next, d, steps) {
      HubIsRun(next, d, steps);
    }
    SameAppend(exec, next, b, first, second);
  }

  lemma HubFour(b: Hub, p: Step, q: Step, r: Step, t: Step)
    ensures Exec(b, [p, q, r, t]) == Do(Do(Do(Do(b, p), q), r), t)
  {
    assert [p, q, r, t] == ((([] + [p]) + [q]) + [r]) + [t];
    HubSnoc(b, [], p);
    HubSnoc(b, [] + [p], q);
    HubSnoc(b, ([] + [p]) + [q], r);
    HubSnoc(b, (([] + [p]) + [q]) + [r], t);
  }

  // n takeovers of tunnel t are over and nothing is in progress.
  ghost predicate AtRest(b: Hub, t: string, n: nat) {
    && |b.conns| == n + 1 && |b.closers| == n && b.current == map[t := n] && b.takeovers == n && b.online == n + 1
    && (forall s :: 0 <= s <= n ==> b.conns[s].pc.Ready? && b.conns[s].tun == Some(t))
    && !b.conns[n].closed
    && (forall c :: 0 <= c < n ==> b.closers[c].pc.Finished?)
  }

  // One more session says hello, up to its call of the old one's close.
  ghost function Arrives(t: string, n: nat): seq<Step> {
    [Open, Bind(n, t), SwapIn(n), Kick(n)]
  }

  // That close, and the rest of the hello.
  ghost function Replaces(n: nat): seq<Step>
    requires n > 0
  {
    [CloseSwap(n - 1), Detach(n - 1), KickReturns(n), Count(n)]
  }

  lemma Binds(b: Hub, t: string, n: nat)
    requires |b.conns| == n
    ensures Do(Do(b, Open), Bind(n, t)) == b.(conns := b.conns + [Conn(Some(t), Bound, false, false)])
  {
    assert (b.conns + [Conn(None, Opening, false, false)])[n := Conn(Some(t), Bound, false, false)]
        == b.conns + [Conn(Some(t), Bound, false, false)];
  }

  lemma SwapsIn(b: Hub, conns: seq<Conn>, t: string, n: nat)
    requires b.conns == conns + [Conn(Some(t), Bound, false, false)] && |conns| == n + 1 && b.current == map[t := n]
    ensures Do(b, SwapIn(n + 1)) ==
            b.(conns := conns + [Conn(Some(t), Replacing(n), false, false)], current := map[t := n + 1],
               latest := b.latest[t := n + 1], takeovers := b.takeovers + 1)
  {
    assert b.conns[n + 1 := Conn(Some(t), Replacing(n), false, false)] == conns + [Conn(Some(t), Replacing(n),
      false, false)];
  }

  lemma Kicks(b: Hub, conns: seq<Conn>, t: string, n: nat)
    requires b.conns == conns + [Conn(Some(t), Replacing(n), false, false)] && |conns| == n + 1 && |b.closers| == n
    ensures Do(b, Kick(n + 1)) ==
            b.(conns := conns + [Conn(Some(t), Kicking(n), false, false)], closers := b.closers + [Closer(n, Called)])
  {
    assert b.conns[n + 1 := Conn(Some(t), Kicking(n), false, false)] == conns + [Conn(Some(t), Kicking(n), false,
      false)];
  }

  lemma ArrivesRuns(b: Hub, t: string, n: nat)
    requires AtRest(b, t, n)
    ensures Kicked(Exec(b, Arrives(t, n + 1)), t, n)
  {
    HubFour(b, Open, Bind(n + 1, t), SwapIn(n + 1), Kick(n + 1));
    Binds(b, t, n + 1);
    var b2 := Do(Do(b, Open), Bind(n + 1, t));
    SwapsIn(b2, b.conns, t, n);
    Kicks(Do(b2, SwapIn(n + 1)), b.conns, t, n);
  }

  // The old session, kicked by the new one.
  ghost predicate Kicked(b: Hub, t: string, n: nat) {
    && |b.conns| == n + 2 && |b.closers| == n + 1 && b.current == map[t := n + 1] && b.takeovers == n + 1 &&
         b.online == n + 1
    && (forall s :: 0 <= s <= n ==> b.conns[s].pc.Ready? && b.conns[s].tun == Some(t))
    && !b.conns[n].closed && b.conns[n + 1] == Conn(Some(t), Kicking(n), false, false)
    && (forall c :: 0 <= c < n ==> b.closers[c].pc.Finished?) && b.closers[n] == Closer(n, Called)
  }

  lemma Detaches(b: Hub, t: string, n: nat)
    requires Kicked(b, t, n)
    ensures Do(Do(b, CloseSwap(n)), Detach(n)) ==
            b.(conns := b.conns[n := b.conns[n].(closed := true, detached := true)],
              closers := b.closers[n := Closer(n, Finished)])
  {
    var b1 := Do(b, CloseSwap(n));
    assert b1 == b.(conns := b.conns[n := b.conns[n].(closed := true)], closers := b.closers[n := Closer(n, Won)]);
    assert b1.conns[n := b1.conns[n].(detached := true)] == b.conns[n := b.conns[n].(closed := true, detached := true)];
  }

  lemma ReplacesRuns(b: Hub, t: string, n: nat)
    requires Kicked(b, t, n)
    ensures AtRest(Exec(b, Replaces(n + 1)), t, n + 1)
  {
    HubFour(b, CloseSwap(n), Detach(n), KickReturns(n + 1), Count(n + 1));
    Detaches(b, t, n);
    var b3 := Do(Do(Do(b, CloseSwap(n)), Detach(n)), KickReturns(n + 1));
    assert b3.conns[n + 1] == Conn(Some(t), Counting, false, false);
    assert Do(b3, Count(n + 1)).conns[n + 1] == Conn(Some(t), Ready, false, false);
  }

  ghost function Takeover(t: string, n: nat): seq<Step> {
    if n == 0 then [Open, Bind(0, t), SwapIn(0), Count(0)] else Takeover(t, n - 1) + Arrives(t, n) + Replaces(n)
  }

  lemma FirstHello(t: string)
    ensures AtRest(Exec(NEW_HUB, Takeover(t, 0)), t, 0)
  {
    HubFour(NEW_HUB, Open, Bind(0, t), SwapIn(0), Count(0));
    var b1 := Do(NEW_HUB, Open);
    var b2 := Do(b1, Bind(0, t));
    assert b2.conns == [Conn(Some(t), Bound, false, false)];
    var b3 := Do(b2, SwapIn(0));
    assert b3.conns == [Conn(Some(t), Counting, false, false)];
  }

  lemma {:induction false} TakeoverRuns(t: string, n: nat)
    ensures AtRest(Exec(NEW_HUB, Takeover(t, n)), t, n)
  {
    if n == 0 {
      FirstHello(t);
    } else {
      TakeoverRuns(t, n - 1);
      var b := Exec(NEW_HUB, Takeover(t, n - 1));
      ArrivesRuns(b, t, n - 1);
      ReplacesRuns(Exec(b, Arrives(t, n)), t, n - 1);
      HubAppend(NEW_HUB, Takeover(t, n - 1), Arrives(t, n));
      HubAppend(NEW_HUB, Takeover(t, n - 1) + Arrives(t, n), Replaces(n));
    }
  }

  /** The counter is wrong by any amount: for every n there is a run at rest, with
      one tunnel online, whose counter says n + 1. */
  lemma CounterOffBy(t: string, n: nat)
    ensures var b := Exec(NEW_HUB, Takeover(t, n));
            CountersSettled(b) && |b.current| == 1 && b.takeovers == n && b.online == n + 1
  {
    TakeoverRuns(t, n);
  }
}
