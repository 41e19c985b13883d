/** The client's concurrency limit, for every history of frames, reconnects and
    interleavings of its forwards. */
module ClientLimits {
  import opened Proto
  import opened Upload
  import opened Client

  ghost predicate SlotsOK(c: Client) {
    && |c.slots| <= MAX_CONCURRENT
    && (forall k :: k in c.slots ==> k < |c.forwards|)
    && (forall k :: 0 <= k < |c.forwards| ==> (k in c.slots <==> HoldsSlot(c.forwards[k])))
  }

  ghost predicate ActiveOK(c: Client) {
    forall i :: i in c.active ==>
      c.active[i] < |c.forwards| && c.forwards[c.active[i]].id == i && Listed(c.forwards[c.active[i]])
  }

  lemma MoveLimits(c: Client, k: nat, m: FMove)
    requires SlotsOK(c) && ActiveOK(c)
    ensures SlotsOK(Do(c, Move(k, m))) && ActiveOK(Do(c, Move(k, m)))
  {
    if k < |c.forwards| {
      MoveKeeps(c.forwards[k], m, c.broken);
    }
  }

  lemma AcquireLimits(c: Client, k: nat)
    requires SlotsOK(c) && ActiveOK(c)
    ensures SlotsOK(Do(c, Acquire(k))) && ActiveOK(Do(c, Acquire(k)))
  {
    if At(c, k, Waiting) && |c.slots| < MAX_CONCURRENT {
      PutLimits(c, k, Slotted);
    }
  }

  // Forwards other than k keep their ids and program counters.
  lemma PutLimits(c: Client, k: nat, pc: FPc)
    requires k < |c.forwards|
    ensures var d := Put(c, k, c.forwards[k].(pc := pc));
            && |d.forwards| == |c.forwards| && d.forwards[k].id == c.forwards[k].id && d.forwards[k].pc == pc
            && forall j :: 0 <= j < |c.forwards| && j != k ==> d.forwards[j] == c.forwards[j]
  {
  }

  lemma ActivateLimits(c: Client, k: nat)
    requires SlotsOK(c) && ActiveOK(c)
    ensures SlotsOK(Do(c, Activate(k))) && ActiveOK(Do(c, Activate(k)))
  {
    if At(c, k, Slotted) {
      PutLimits(c, k, Asking);
    }
  }

  lemma DeactivateLimits(c: Client, k: nat)
    requires SlotsOK(c) && ActiveOK(c)
    ensures SlotsOK(Do(c, Deactivate(k))) && ActiveOK(Do(c, Deactivate(k)))
  {
    if At(c, k, Unwinding) {
      PutLimits(c, k, Releasing);
    }
  }

  lemma ReleaseLimits(c: Client, k: nat)
    requires SlotsOK(c) && ActiveOK(c)
    ensures SlotsOK(Do(c, Release(k))) && ActiveOK(Do(c, Release(k)))
  {
    if At(c, k, Releasing) {
      PutLimits(c, k, Over);
    }
  }

  lemma ReceiveLimits(c: Client, f: Frame)
    requires SlotsOK(c) && ActiveOK(c)
    ensures SlotsOK(DoReceive(c, f)) && ActiveOK(DoReceive(c, f))
  {
    var d := DoReceive(c, f);
    ReceiveShape(c, f);
    forall k | 0 <= k < |d.forwards| ensures k in d.slots <==> HoldsSlot(d.forwards[k]) {
      if k < |c.forwards| {
        assert d.forwards[k].pc == c.forwards[k].pc;
      }
    }
  }

  lemma ReceiveShape(c: Client, f: Frame)
    ensures var d := DoReceive(c, f);
            && d.slots == c.slots && |c.forwards| <= |d.forwards|
            && (forall k :: 0 <= k < |c.forwards| ==>
                  d.forwards[k].pc == c.forwards[k].pc && d.forwards[k].id == c.forwards[k].id)
            && (forall k :: |c.forwards| <= k < |d.forwards| ==> d.forwards[k].pc.Waiting?)
            && (forall i :: i in d.active ==> i in c.active && d.active[i] == c.active[i])
  {
  }

  lemma StepLimits(c: Client, st: Step)
    requires SlotsOK(c) && ActiveOK(c)
    ensures SlotsOK(Do(c, st)) && ActiveOK(Do(c, st))
  {
    match st
    case Receive(f) => ReceiveLimits(c, f);
    case Move(k, m) => MoveLimits(c, k, m);
    case Acquire(k) => AcquireLimits(c, k);
    case Activate(k) => ActivateLimits(c, k);
    case Deactivate(k) => DeactivateLimits(c, k);
    case Release(k) => ReleaseLimits(c, k);
    case _ =>
  }

  lemma {:induction false} LimitsReachable(steps: seq<Step>)
    ensures SlotsOK(Exec(NEW_CLIENT, steps)) && ActiveOK(Exec(NEW_CLIENT, steps))
  {
    if steps != [] {
      LimitsReachable(steps[..|steps| - 1]);
      StepLimits(Exec(NEW_CLIENT, steps[..|steps| - 1]), steps[|steps| - 1]);
    }
  }

  // A map whose keys can be read off its values is no larger than its values.
  lemma {:induction false} InjectiveSize(m: map<ReqID, nat>, into: set<nat>)
    requires forall i :: i in m ==> m[i] in into
    requires forall i, j :: i in m && j in m && m[i] == m[j] ==> i == j
    ensures |m| <= |into|
    decreases |m|
  {
    if m != map[] {
      var i :| i in m;
      var rest := m - {i};
      assert |rest.Keys| == |m.Keys| - 1 by { assert rest.Keys == m.Keys - {i}; }
      InjectiveSize(rest, into - {m[i]});
    }
  }

  /** At most 8 forwards hold a slot, every active entry belongs to a slot holder
      with that request id, and so at most 8 requests are active. */
  lemma ConcurrencyBound(steps: seq<Step>)
    ensures var c := Exec(NEW_CLIENT, steps);
            && |c.slots| <= MAX_CONCURRENT && |c.active| <= MAX_CONCURRENT
            && (forall k :: 0 <= k < |c.forwards| ==> (HoldsSlot(c.forwards[k]) <==> k in c.slots))
            && (forall i :: i in c.active ==>
                  c.active[i] in c.slots && c.active[i] < |c.forwards| && c.forwards[c.active[i]].id == i)
  {
    LimitsReachable(steps);
    var c := Exec(NEW_CLIENT, steps);
    InjectiveSize(c.active, c.slots);
  }

  /** Exactly which forward a cancel frame reaches: the one `active` names for its
      id, and no other; nothing else about any forward changes. */
  lemma CancelReaches(c: Client, i: ReqID, k: nat)
    requires k < |c.forwards|
    ensures var d, x := Do(c, Receive(Cancel(i))), c.forwards[k];
            && |d.forwards| == |c.forwards|
            && d.forwards[k] == x.(cancelled := x.cancelled || (i in c.active && c.active[i] == k))
            && i !in d.active && i !in d.pending
  {
    CancelDispatchesNothing(c, i);
  }

  lemma CancelDispatchesNothing(c: Client, i: ReqID)
    ensures TableStep(TableOf(c), Cancel(i)).pending == c.pending - {i}
    ensures StepSlot(SlotOf(TableOf(c), i), Cancel(i)).out == []
  {
  }

  /** A cancel that arrives after the request was dispatched but before its forward
      registered in `active` is lost: the forward goes on as if nothing came. */
  lemma EarlyCancelLost(steps: seq<Step>, k: nat)
    requires k < |Exec(NEW_CLIENT, steps).forwards|
    requires var x := Exec(NEW_CLIENT, steps).forwards[k]; x.pc.Waiting? || x.pc.Slotted?
    ensures var c := Exec(NEW_CLIENT, steps);
            var d := Do(c, Receive(Cancel(c.forwards[k].id)));
            k < |d.forwards| && d.forwards[k] == c.forwards[k]
  {
    LimitsReachable(steps);
    CancelReaches(Exec(NEW_CLIENT, steps), Exec(NEW_CLIENT, steps).forwards[k].id, k);
  }
}
