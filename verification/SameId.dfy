/** A client with no custom id does not get its tunnel id back: the run that shows
    it, for any two ids and secrets the random source may yield. */
module SameId {
  import opened Proto
  import opened Fold
  import opened Relay
  import opened Registry
  import opened Sticky

  lemma WorldSnoc(w: World, hash: HashFn, events: seq<Event>, e: Event)
    ensures Sticky.Exec(w, hash, events + [e]) == Sticky.Do(Sticky.Exec(w, hash, events), hash, e)
  {
    assert (events + [e])[..|events|] == events;
  }

  lemma {:induction false} WorldIsRun(next: (World, Event) -> World, w: World, hash: HashFn, events: seq<Event>)
    requires forall v: World, e: Event :: next(v, e) == Sticky.Do(v, hash, e)
    ensures Sticky.Exec(w, hash, events) == Run(next, w, events)
  {
    if events != [] {
      WorldIsRun(next, w, hash, events[..|events| - 1]);
    }
  }

  lemma WorldAppend(w: World, hash: HashFn, a: seq<Event>, b: seq<Event>)
    ensures Sticky.Exec(w, hash, a + b) == Sticky.Exec(Sticky.Exec(w, hash, a), hash, b)
  {
    var next := (v: World, e: Event) => Sticky.Do(v, hash, e);
    var exec := (v: World, events: seq<Event>) => Sticky.Exec(v, hash, events);
    forall v: World, events: seq<Event> ensures exec(v, events) == Run(next, v, events) {
      WorldIsRun(next, v, hash, events);
    }
    SameAppend(exec, next, w, a, b);
  }

  lemma WorldTwo(w: World, hash: HashFn, a: Event, b: Event)
    ensures Sticky.Exec(w, hash, [a, b]) == Sticky.Do(Sticky.Do(w, hash, a), hash, b)
  {
    assert [a, b] == ([] + [a]) + [b];
    WorldSnoc(w, hash, [], a);
    WorldSnoc(w, hash, [] + [a], b);
  }

  lemma WorldThree(w: World, hash: HashFn, a: Event, b: Event, c: Event)
    ensures Sticky.Exec(w, hash, [a, b, c]) == Sticky.Do(Sticky.Do(Sticky.Do(w, hash, a), hash, b), hash, c)
  {
    assert [a, b, c] == [a, b] + [c];
    WorldTwo(w, hash, a, b);
    WorldSnoc(w, hash, [a, b], c);
  }

  // One client, with no custom id, between two connections.
  ghost predicate Resting(w: World) {
    && |w.clients| == 1 && w.clients[0].custom == "" && w.serving.None? && w.reg.up && w.reg.op.Idle?
  }

  // Its hello is being answered: the registry is to grant id with secret s.
  ghost predicate Granting(w: World, id: string, s: string, mem: Records) {
    && |w.clients| == 1 && w.clients[0].custom == "" && w.reg.up && w.reg.mem == mem
    && |w.hellos| > 0 && w.serving == Some(|w.hellos| - 1) && w.clients[0].latest == Some(|w.hellos| - 1)
    && w.hellos[|w.hellos| - 1].client == 0 && w.hellos[|w.hellos| - 1].pc.Registering?
  }

  lemma NoWish()
    ensures Normalise("") == ""
  {
  }

  // The new hello, queued.
  lemma Connects(w: World, hash: HashFn)
    requires Resting(w)
    ensures var t := Sticky.Do(w, hash, Connect(0));
            && t == w.(clients := t.clients, hellos := w.hellos + [Hello(0, "", w.clients[0].secret, Queued)])
            && |t.clients| == 1 && t.clients[0] == w.clients[0].(latest := Some(|w.hellos|))
  {
  }

  lemma Serves(w: World, hash: HashFn, h: nat, id: string)
    requires |w.hellos| == h + 1 && w.hellos[h].pc.Queued? && w.hellos[h].desired == "" && w.serving.None?
    requires w.reg.up && w.reg.op.Idle? && ValidTunnelID(id) && id !in w.reg.mem
    ensures var t := Sticky.Do(w, hash, Serve(h, [id]));
            t == SetHello(w.(reg := Insert(w.reg, id, false)), h, Registering).(serving := Some(h))
  {
    AsksRegister(w.reg, hash, w.hellos[h].secret, id);
  }

  lemma Generates(w: World, hash: HashFn, id: string, s: string)
    requires w.reg.op == Fresh(id, false) && id in w.reg.mem && w.reg.mem[id] == Rec("", "") && s != ""
    ensures var t := Sticky.Do(w, hash, Inside(NewSecret(Some(s))));
            t == w.(reg := w.reg.(mem := w.reg.mem[id := Rec(hash(s), "")], op := Saving(Grant(id, s, false))))
  {
  }

  lemma Asks(w: World, hash: HashFn, id: string, s: string)
    requires Resting(w) && ValidTunnelID(id) && id !in w.reg.mem && s != ""
    ensures var t := Sticky.Exec(w, hash, [Connect(0), Serve(|w.hellos|, [id]), Inside(NewSecret(Some(s)))]);
            && Granting(t, id, s, w.reg.mem[id := Rec(hash(s), "")]) && t.reg.op == Saving(Grant(id, s, false))
            && |t.hellos| == |w.hellos| + 1
  {
    var h := |w.hellos|;
    WorldThree(w, hash, Connect(0), Serve(h, [id]), Inside(NewSecret(Some(s))));
    Connects(w, hash);
    var w1 := Sticky.Do(w, hash, Connect(0));
    Serves(w1, hash, h, id);
    Generates(Sticky.Do(w1, hash, Serve(h, [id])), hash, id, s);
    assert w.reg.mem[id := Rec("", "")][id := Rec(hash(s), "")] == w.reg.mem[id := Rec(hash(s), "")];
  }

  lemma AsksRegister(r: Reg, hash: HashFn, secret: string, id: string)
    requires r.up && r.op.Idle? && ValidTunnelID(id) && id !in r.mem
    ensures WellDrawn([id]) && Registry.Do(r, hash, Register("", secret, [id])) == Insert(r, id, false)
  {
    NoWish();
  }

  lemma Saves(w: World, hash: HashFn, id: string, s: string, mem: Records)
    requires Granting(w, id, s, mem) && w.reg.op == Saving(Grant(id, s, false))
    ensures var t := Sticky.Exec(w, hash, [Inside(Marshal), Inside(WriteDone), Inside(Rename)]);
            && Granting(t, id, s, mem) && t.reg.op == Returning(Grant(id, s, false)) && |t.hellos| == |w.hellos|
  {
    WorldThree(w, hash, Inside(Marshal), Inside(WriteDone), Inside(Rename));
    var w1 := Sticky.Do(w, hash, Inside(Marshal));
    assert w1 == w.(reg := Registry.Do(w.reg, hash, Marshal));
    var w2 := Sticky.Do(w1, hash, Inside(WriteDone));
    assert w2 == w1.(reg := Registry.Do(w1.reg, hash, WriteDone));
  }

  lemma Hears(w: World, hash: HashFn, id: string, s: string, mem: Records)
    requires Granting(w, id, s, mem) && w.reg.op == Returning(Grant(id, s, false))
    ensures var t := Sticky.Exec(w, hash, [Inside(Return), Deliver(|w.hellos| - 1)]);
            Resting(t) && t.reg.mem == mem && t.clients[0].tunnel == id && t.clients[0].granted
  {
    var h := |w.hellos| - 1;
    WorldTwo(w, hash, Inside(Return), Deliver(h));
    var w1 := Sticky.Do(w, hash, Inside(Return));
    assert w1.hellos[h].pc == Answered(Ack(id, false, false, s, true)) && Listening(w1, h);
  }

  ghost function Round(h: nat, id: string, s: string): seq<Event> {
    [Connect(0), Serve(h, [id]), Inside(NewSecret(Some(s)))] +
    [Inside(Marshal), Inside(WriteDone), Inside(Rename)] +
    [Inside(Return), Deliver(h)]
  }

  lemma RoundRuns(w: World, hash: HashFn, id: string, s: string)
    requires Resting(w) && ValidTunnelID(id) && id !in w.reg.mem && s != ""
    ensures var t := Sticky.Exec(w, hash, Round(|w.hellos|, id, s));
            && Resting(t) && t.reg.mem == w.reg.mem[id := Rec(hash(s), "")]
            && t.clients[0].tunnel == id && t.clients[0].granted
  {
    var h := |w.hellos|;
    var first := [Connect(0), Serve(h, [id]), Inside(NewSecret(Some(s)))];
    var second := [Inside(Marshal), Inside(WriteDone), Inside(Rename)];
    var mem := w.reg.mem[id := Rec(hash(s), "")];
    Asks(w, hash, id, s);
    var w1 := Sticky.Exec(w, hash, first);
    Saves(w1, hash, id, s, mem);
    WorldAppend(w, hash, first, second);
    var w2 := Sticky.Exec(w, hash, first + second);
    Hears(w2, hash, id, s, mem);
    WorldAppend(w, hash, first + second, [Inside(Return), Deliver(h)]);
  }

  // The client's last tunnel id is one it was granted.
  predicate WasGranted(w: World, id: string) {
    |w.clients| == 1 && w.clients[0].tunnel == id && w.clients[0].granted
  }

  ghost function Setup(secret: string): seq<Event> {
    [Install("", secret), Inside(Load)]
  }

  lemma SetupRuns(hash: HashFn, secret: string)
    ensures var t := Sticky.Exec(NEW_WORLD, hash, Setup(secret));
            Resting(t) && t.reg.mem == map[]
  {
    WorldTwo(NEW_WORLD, hash, Install("", secret), Inside(Load));
    var w1 := Sticky.Do(NEW_WORLD, hash, Install("", secret));
    assert w1.clients == [Config("", secret, "", None, false, false, false)];
  }

  /** A client that has no custom id connects twice: the id it was granted and stored
      is not the one it has afterwards, though nobody else took the first. */
  lemma WithoutCustomIdLost(hash: HashFn, secret: string, id: string, s: string, other: string, s': string)
    requires ValidTunnelID(id) && ValidTunnelID(other) && id != other && s != "" && s' != ""
    ensures var first := Sticky.Exec(NEW_WORLD, hash, Setup(secret) + Round(0, id, s));
            && WasGranted(first, id)
            && exists more :: WasGranted(Sticky.Exec(first, hash, more), other)
                              && Sticky.Exec(first, hash, more).reg.mem == map[id := Rec(hash(s), ""),
                                   other := Rec(hash(s'), "")]
  {
    SetupRuns(hash, secret);
    var w := Sticky.Exec(NEW_WORLD, hash, Setup(secret));
    assert w.hellos == [] by { SetupNoHello(hash, secret); }
    RoundRuns(w, hash, id, s);
    WorldAppend(NEW_WORLD, hash, Setup(secret), Round(0, id, s));
    var first := Sticky.Exec(NEW_WORLD, hash, Setup(secret) + Round(0, id, s));
    RoundRuns(first, hash, other, s');
    var t := Sticky.Exec(first, hash, Round(|first.hellos|, other, s'));
    assert t.reg.mem == map[id := Rec(hash(s), ""), other := Rec(hash(s'), "")];
  }

  lemma SetupNoHello(hash: HashFn, secret: string)
    ensures Sticky.Exec(NEW_WORLD, hash, Setup(secret)).hellos == []
  {
    WorldTwo(NEW_WORLD, hash, Install("", secret), Inside(Load));
  }
}
