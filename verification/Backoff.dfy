/** The client's reconnect backoff, in nanoseconds. */
module Backoff {

  const SECOND: int := 1_000_000_000
  const INITIAL_BACKOFF: int := SECOND
  const MAX_BACKOFF: int := 60 * SECOND

  function Min(a: int, b: int): int {
    if a < b then a else b
  }

  function Pow2(k: nat): int {
    if k == 0 then 1 else 2 * Pow2(k - 1)
  }

  // What happens to the reconnect loop: a call of Reconnect, a successful connect,
  // and the two ways sleepBackoff goes.
  datatype Event = Asked | Connected | Waited | Skipped

  /** Waits since the last successful connect; a Reconnect skip is no wait. */
  function WaitsSince(events: seq<Event>): nat {
    if events == [] then 0
    else
      match events[|events| - 1]
      case Connected => 0
      case Waited => WaitsSince(events[..|events| - 1]) + 1
      case _ => WaitsSince(events[..|events| - 1])
  }

  /** Reconnect was called after the last sleepBackoff. */
  function Pending(events: seq<Event>): bool {
    events != [] &&
    match events[|events| - 1]
    case Asked => true
    case Connected => Pending(events[..|events| - 1])
    case _ => false
  }

  // Every sleepBackoff skips exactly when a request is pending.
  ghost predicate Orderly(events: seq<Event>) {
    events != [] ==>
      var before := events[..|events| - 1];
      Orderly(before)
      && (events[|events| - 1].Skipped? ==> Pending(before))
      && (events[|events| - 1].Waited? ==> !Pending(before))
  }

  function Count(events: seq<Event>, e: Event): nat {
    if events == [] then 0
    else Count(events[..|events| - 1], e) + if events[|events| - 1] == e then 1 else 0
  }

  function ClosedForm(k: nat): int {
    Min(Pow2(k) * SECOND, MAX_BACKOFF)
  }

  class ReconnectLoop {
    var backoff: int
    var recon: bool
    var closed: bool
    ghost var events: seq<Event>

    /** The backoff is its closed form in the number of waits, and the flag says
        whether a request is pending. */
    ghost predicate Valid()
      reads this
    {
      backoff == ClosedForm(WaitsSince(events)) && recon == Pending(events) && Orderly(events)
    }

    constructor ()
      ensures Valid() && events == [] && !closed
    {
      backoff, recon, closed, events := INITIAL_BACKOFF, false, false, [];
    }

    method ConnectSucceeds()
      requires Valid()
      modifies this`backoff, this`closed, this`events
      ensures Valid() && !closed && events == old(events) + [Connected]
    {
      backoff, closed := INITIAL_BACKOFF, false;
      events := events + [Connected];
      assert events[..|events| - 1] == old(events);
    }

    /** Reconnect drops the connection and leaves the base alone. */
    method Reconnect()
      requires Valid()
      modifies this`recon, this`closed, this`events
      ensures Valid() && closed && events == old(events) + [Asked] && backoff == old(backoff)
    {
      recon, closed := true, true;
      events := events + [Asked];
      assert events[..|events| - 1] == old(events);
    }

    /** sleepBackoff: a pending request skips the wait; otherwise the base doubles
        up to the cap and the delay is within a fifth of it.  `draw` is what the
        random source yields; rand.Int63n(n) needs n > 0. */
    method SleepBackoff(draw: nat) returns (delay: int)
      requires Valid()
      modifies this`backoff, this`recon, this`events
      ensures Valid()
      ensures Pending(old(events)) ==> delay == 0 && backoff == old(backoff) && events == old(events) + [Skipped]
      ensures !Pending(old(events)) ==>
                && events == old(events) + [Waited]
                && backoff == ClosedForm(WaitsSince(old(events)) + 1)
                && backoff - backoff / 5 <= delay <= backoff + backoff / 5
                && 0 < delay <= 72 * SECOND
    {
      if recon {
        recon := false;
        events := events + [Skipped];
        assert events[..|events| - 1] == old(events);
        return 0;
      }
      DoubleClosedForm(WaitsSince(events));
      backoff := Min(backoff * 2, MAX_BACKOFF);
      events := events + [Waited];
      assert events[..|events| - 1] == old(events);
      var range := backoff / 5 * 2 + 1;
      assert range > 0;
      delay := backoff - backoff / 5 + draw % range;
    }
  }

  /** Each call of Reconnect skips at most one wait, and one that is pending has
      not skipped any yet. */
  lemma {:induction false} SkipsAreAsked(events: seq<Event>)
    requires Orderly(events)
    ensures Count(events, Skipped) + (if Pending(events) then 1 else 0) <= Count(events, Asked)
  {
    if events != [] {
      SkipsAreAsked(events[..|events| - 1]);
    }
  }

  lemma {:induction false} Pow2Positive(k: nat)
    ensures Pow2(k) >= 1
  {
    if k > 0 {
      Pow2Positive(k - 1);
    }
  }

  lemma DoubleClosedForm(k: nat)
    ensures Min(ClosedForm(k) * 2, MAX_BACKOFF) == ClosedForm(k + 1)
    ensures SECOND <= ClosedForm(k) <= MAX_BACKOFF
  {
    Pow2Positive(k);
    assert Pow2(k + 1) * SECOND == 2 * (Pow2(k) * SECOND);
  }

  /** From the sixth wait on the base stays at the cap. */
  lemma {:induction false} CapReached(k: nat)
    requires k >= 6
    ensures ClosedForm(k) == MAX_BACKOFF
    decreases k
  {
    if k == 6 {
      assert Pow2(6) == 64 by {
        assert Pow2(3) == 8;
        assert Pow2(6) == 8 * Pow2(3);
      }
    } else {
      CapReached(k - 1);
      DoubleClosedForm(k - 1);
    }
  }
}
