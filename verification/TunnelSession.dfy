/** The Session object of the server: the id counter, the `pending` map and the
    mailboxes it owns.  Each method here is one goroutine's call run on its own;
    the interleavings are the business of module Server. */
module TunnelSession {
  import opened Proto

  // ------------------------------------------------------------------ allocation

  // The id after k increments of the counter.
  function Nth(start: ReqID, k: nat): ReqID {
    (start + k) % ID_SPACE
  }

  ghost predicate AllTaken(start: ReqID, n: nat, used: set<ReqID>) {
    forall k :: 1 <= k <= n ==> Nth(start, k) in used
  }

  /** Pigeonhole over the wrap: fewer than 2^32 taken ids cannot fill more
      consecutive increments than there are taken ids. */
  lemma {:induction false} Pigeonhole(start: ReqID, n: nat, used: set<ReqID>)
    requires n <= ID_SPACE && AllTaken(start, n, used)
    ensures n <= |used|
    decreases n
  {
    if n > 0 {
      var last := Nth(start, n);
      assert last in used;
      forall k | 1 <= k <= n - 1 ensures Nth(start, k) in used - {last} {
        TicksDistinct(start + k, start + n);
      }
      Pigeonhole(start, n - 1, used - {last});
    }
  }

  // -------------------------------------------------------------------- mailboxes

  class Mailbox {
    var ch: seq<Frame>
    var done: bool

    constructor ()
      ensures ch == [] && !done
    {
      ch, done := [], false;
    }

    // close(pr.done): a second close would panic.
    method CloseDone()
      requires !done
      modifies this`done
      ensures done
    {
      done := true;
    }
  }

  datatype Routed = Delivered | Dropped | Blocks

  class Session {
    var nextID: ReqID
    var pending: map<ReqID, Mailbox>
    var closed: bool
    var done: bool

    /** Every mailbox in `pending` is open, and no two ids share one. */
    ghost predicate Valid()
      reads this, pending.Values
    {
      && (done ==> closed)
      && (forall i :: i in pending ==> !pending[i].done)
      && (forall i, j :: i in pending && j in pending && i != j ==> pending[i] != pending[j])
    }

    constructor ()
      ensures Valid() && fresh(this) && nextID == 0 && pending == map[] && !closed && !done
    {
      nextID, pending, closed, done := 0, map[], false, false;
    }

    /** NextReqID skips ids in flight and stops at the first free one, within
        |pending| + 1 increments of the wrapping counter. */
    method NextReqID() returns (id: ReqID, ghost tries: nat)
      requires |pending| < ID_SPACE
      modifies this`nextID
      ensures id == nextID && id !in pending
      ensures 1 <= tries <= |pending| + 1 && id == Nth(old(nextID), tries)
      ensures AllTaken(old(nextID), tries - 1, pending.Keys)
    {
      nextID, tries := Succ(nextID), 1;
      while nextID in pending
        invariant 1 <= tries <= |pending| + 1 && nextID == Nth(old(nextID), tries)
        invariant AllTaken(old(nextID), tries - 1, pending.Keys)
        decreases |pending| + 1 - tries
      {
        assert AllTaken(old(nextID), tries, pending.Keys);
        Pigeonhole(old(nextID), tries, pending.Keys);
        nextID, tries := Succ(nextID), tries + 1;
      }
      id := nextID;
    }

    method RegisterPending(reqID: ReqID) returns (pr: Mailbox)
      requires Valid()
      modifies this`pending
      ensures fresh(pr) && pr.ch == [] && !pr.done
      ensures pending == old(pending)[reqID := pr]
      ensures Valid()
    {
      pr := new Mailbox();
      pending := pending[reqID := pr];
    }

    method UnregisterPending(reqID: ReqID)
      requires Valid()
      modifies this`pending, pending.Values
      ensures pending == old(pending) - {reqID}
      ensures reqID in old(pending) ==> old(pending)[reqID].done
      ensures forall i :: i in old(pending) ==> old(pending)[i].ch == old(pending[i].ch)
      ensures Valid()
    {
      if reqID in pending {
        pending[reqID].CloseDone();
        pending := pending - {reqID};
      } else {
        assert pending - {reqID} == pending;
      }
    }

    /** One look at the mailbox by routeResponse: unknown ids are dropped, a full
        mailbox blocks until its done closes, and nothing is ever overwritten. */
    method RouteResponse(f: Frame) returns (r: Routed)
      requires IsReply(f) && Valid()
      modifies pending.Values
      ensures r.Dropped? <==> f.id !in pending
      ensures r.Blocks? <==> f.id in pending && |old(pending[f.id].ch)| >= MAILBOX_CAP
      ensures r.Delivered? ==> pending[f.id].ch == old(pending[f.id].ch) + [f]
      ensures forall i :: i in pending && !(r.Delivered? && i == f.id) ==> pending[i].ch == old(pending[i].ch)
      ensures Valid()
    {
      if f.id !in pending {
        return Dropped;
      }
      var pr := pending[f.id];
      if |pr.ch| < MAILBOX_CAP {
        pr.ch := pr.ch + [f];
        return Delivered;
      }
      return Blocks;
    }

    /** The first close() closes done and every pending mailbox exactly once and
        empties `pending`; every later call changes nothing. */
    method Close()
      requires Valid()
      modifies this`closed, this`done, this`pending, pending.Values
      ensures Valid() && closed
      ensures old(closed) ==> done == old(done) && pending == old(pending)
      ensures !old(closed) ==> done && pending == map[] && forall i :: i in old(pending) ==> old(pending)[i].done
      ensures forall i :: i in old(pending) ==> old(pending)[i].ch == old(pending[i].ch)
    {
      if closed {
        return;
      }
      closed := true;
      done := true;
      var left := pending.Keys;
      while left != {}
        invariant closed && done && left <= pending.Keys && pending == old(pending)
        invariant forall i :: i in pending && i !in left ==> pending[i].done
        invariant forall i :: i in left ==> !pending[i].done
        invariant forall i :: i in pending ==> pending[i].ch == old(pending[i].ch)
        decreases |left|
      {
        var i :| i in left;
        left := left - {i};
        pending[i].CloseDone();
      }
      pending := map[];
    }
  }
}
