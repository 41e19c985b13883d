/** Reconnecting clients against the registry: any number of clients send hellos
    with their custom id and stored secret, acks are delivered or lost, the server
    crashes and restarts, and the custom id of a client that was granted it stays
    that client's own. */
module Sticky {
  import opened Proto
  import opened Relay
  import opened Registry

  // hello_ack; `backed` records that a reused id had been granted before.
  datatype Ack = Ack(id: string, reused: bool, denied: bool, secret: string, backed: bool)

  datatype HelloPc = Queued | Registering | Answered(ack: Ack) | Delivered | Dead

  datatype Hello = Hello(client: nat, desired: string, secret: string, pc: HelloPc)

  // Config: only CustomID is ever asked for; `tunnel` is stored and shown, never sent.
  // `latest` is the connection the client is reading from; `acked` records an ack
  // for its present custom id, `holds` that this id had been granted, and `granted`
  // that `tunnel` had been.
  datatype Config = Config(
    custom: string, secret: string, tunnel: string, latest: Option<nat>, acked: bool, holds: bool, granted: bool)

  datatype World = World(reg: Reg, clients: seq<Config>, hellos: seq<Hello>, serving: Option<nat>)

  const NEW_WORLD: World := World(NEW_REG, [], [], None)

  datatype Event =
    | Install(custom: string, secret: string)    // a client with any configuration
    | SetCustom(k: nat, custom: string)
    | Connect(k: nat)                             // dial and send hello
    | Serve(h: nat, draws: seq<string>)           // handleHello enters Register
    | Inside(st: Step)                            // any other registry step, crash or restart
    | Deliver(h: nat)                             // the client reads its ack

  // A client ignores the acks of connections it has given up.
  predicate Listening(w: World, h: nat) {
    h < |w.hellos| && w.hellos[h].pc.Answered? && w.hellos[h].client < |w.clients| &&
    w.clients[w.hellos[h].client].latest == Some(h)
  }

  function SetHello(w: World, h: nat, pc: HelloPc): World
    requires h < |w.hellos|
  {
    w.(hellos := w.hellos[h := w.hellos[h].(pc := pc)])
  }

  ghost function DoServe(w: World, hash: HashFn, h: nat, draws: seq<string>): World
    requires h < |w.hellos|
  {
    var x := w.hellos[h];
    var r := Registry.Do(w.reg, hash, Register(x.desired, x.secret, draws));
    var w' := w.(reg := r);
    if |r.log| > |w.reg.log| then
      var id := Normalise(x.desired);
      SetHello(w', h, Answered(Ack(id, true, false, "", GrantedIn(w.reg.log, id))))
    else if r.op.Fresh? then SetHello(w', h, Registering).(serving := Some(h))
    else SetHello(w', h, Dead)
  }

  // generateSecret yields 32 encoded bytes, never the empty string.
  predicate Sensible(st: Step) {
    !st.Register? && (st.NewSecret? && st.s.Some? ==> st.s.value != "")
  }

  ghost function DoInside(w: World, hash: HashFn, st: Step): World {
    var r := Registry.Do(w.reg, hash, st);
    var w' := w.(reg := r);
    if w.serving.Some? && w.serving.value < |w.hellos| && r.op.Idle? then
      var h := w.serving.value;
      if st.Return? && w.reg.op.Returning? && w.reg.op.what.Grant?
      then SetHello(w', h, Answered(Ack(w.reg.op.what.id, false, w.reg.op.what.denied, w.reg.op.what.secret,
        true))).(serving := None)
      else SetHello(w', h, Dead).(serving := None)
    else w'
  }

  // The client stores a delivered secret whatever id it is for.
  function Stored(c: Config, desired: string, ack: Ack): Config {
    c.(secret := if ack.secret != "" then ack.secret else c.secret, tunnel := ack.id, granted := ack.backed,
       acked := desired == c.custom && Normalise(c.custom) == ack.id && !ack.denied,
       holds := desired == c.custom && Normalise(c.custom) == ack.id && !ack.denied && ack.backed)
  }

  ghost function Do(w: World, hash: HashFn, e: Event): World {
    match e
    case Install(custom, secret) => w.(clients := w.clients + [Config(custom, secret, "", None, false, false, false)])
    case SetCustom(k, custom) =>
      if k < |w.clients| then w.(clients := w.clients[k := w.clients[k].(custom := custom, acked := false,
        holds := false)]) else w
    case Connect(k) =>
      if k < |w.clients| then
        var c := w.clients[k];
        w.(clients := w.clients[k := c.(latest := Some(|w.hellos|))],
           hellos := w.hellos + [Hello(k, c.custom, c.secret, Queued)])
      else w
    case Serve(h, draws) =>
      if h < |w.hellos| && w.hellos[h].pc.Queued? && w.serving.None? && w.reg.up && w.reg.op.Idle? && WellDrawn(draws)
      then DoServe(w, hash, h, draws)
      else w
    case Inside(st) =>
      if Sensible(st) && (st.Save? ==> w.serving.None?) then DoInside(w, hash, st) else w
    case Deliver(h) =>
      if Listening(w, h) then
        var k := w.hellos[h].client;
        SetHello(w, h, Delivered).(clients := w.clients[k := Stored(w.clients[k], w.hellos[h].desired,
          w.hellos[h].pc.ack)])
      else w
  }

  ghost function Exec(w: World, hash: HashFn, events: seq<Event>): World {
    if events == [] then w else Do(Exec(w, hash, events[..|events| - 1]), hash, events[|events| - 1])
  }

  // --------------------------------------------------------------- the invariant

  // id was granted with a secret that hashes like this one.
  ghost predicate Owned(hash: HashFn, log: seq<Reply>, id: string, secret: string) {
    exists j :: 0 <= j < |log| && log[j].Granted? && log[j].id == id && hash(log[j].secret) == hash(secret)
  }

  ghost predicate AckOK(hash: HashFn, w: World, x: Hello) {
    x.pc.Answered? ==>
      var a := x.pc.ack;
      if a.reused
      then a.id == Normalise(x.desired) && !a.denied && a.secret == "" && (a.backed ==> Owned(hash, w.reg.log,
        a.id, x.secret))
      else a.secret != "" && Owned(hash, w.reg.log, a.id, a.secret)
  }

  // A hello in flight asks for what its client holds, and can only be told so.
  ghost predicate Repeats(c: Config, x: Hello) {
    x.pc.Delivered? ||
    (x.desired == c.custom && x.secret == c.secret &&
     (x.pc.Queued? || (x.pc.Answered? && x.pc.ack == Ack(Normalise(c.custom), true, false, "", true))))
  }

  ghost predicate HoldOK(hash: HashFn, w: World, c: Config) {
    c.holds ==>
      && Normalise(c.custom) != "" && Owned(hash, w.reg.log, Normalise(c.custom), c.secret)
      && (c.latest.Some? ==> c.latest.value < |w.hellos| && Repeats(c, w.hellos[c.latest.value]))
  }

  // A tunnel id that was granted when it was stored stays granted.
  ghost predicate TunnelsOK(w: World) {
    && (forall k :: 0 <= k < |w.clients| && w.clients[k].granted ==> GrantedIn(w.reg.log, w.clients[k].tunnel))
    && (forall h :: 0 <= h < |w.hellos| && w.hellos[h].pc.Answered? && w.hellos[h].pc.ack.backed ==>
          GrantedIn(w.reg.log, w.hellos[h].pc.ack.id))
  }

  ghost predicate LatestOK(w: World) {
    forall k :: 0 <= k < |w.clients| && w.clients[k].latest.Some? ==>
      var h := w.clients[k].latest.value;
      h < |w.hellos| && w.hellos[h].client == k &&
      (w.hellos[h].pc.Delivered? || w.hellos[h].secret == w.clients[k].secret)
  }

  // The registry operation in progress, if any, is that of the hello being served.
  ghost predicate ServingOK(w: World) {
    && (w.serving.Some? ==>
          && w.serving.value < |w.hellos| && w.hellos[w.serving.value].pc.Registering? && !w.reg.op.Idle?)
    && (w.serving.None? ==> match w.reg.op
          case Idle => true
          case Fresh(_, _) => false
          case Saving(what) => what.Plain?
          case Writing(_, what) => what.Plain?
          case Renaming(_, what) => what.Plain?
          case Returning(what) => what.Plain?)
    && (match w.reg.op
        case Saving(what) => what.Grant? ==> what.secret != ""
        case Writing(_, what) => what.Grant? ==> what.secret != ""
        case Renaming(_, what) => what.Grant? ==> what.secret != ""
        case Returning(what) => what.Grant? ==> what.secret != ""
        case _ => true)
  }

  ghost predicate WorldOK(hash: HashFn, w: World) {
    && RegOK(hash, w.reg) && LatestOK(w) && ServingOK(w)
    && (forall h :: 0 <= h < |w.hellos| ==> AckOK(hash, w, w.hellos[h]))
    && (forall k :: 0 <= k < |w.clients| ==> HoldOK(hash, w, w.clients[k]))
  }

  lemma OwnedGrows(hash: HashFn, a: seq<Reply>, b: seq<Reply>, id: string, secret: string)
    requires a <= b
    ensures Owned(hash, a, id, secret) ==> Owned(hash, b, id, secret)
  {
    if Owned(hash, a, id, secret) {
      var j :| 0 <= j < |a| && a[j].Granted? && a[j].id == id && hash(a[j].secret) == hash(secret);
      assert b[j] == a[j];
    }
  }

  // A registry step lets every ack and every hold stand.
  lemma RegStepKeeps(hash: HashFn, w: World, st: Step)
    requires Proper(hash) && WorldOK(hash, w)
    ensures var w' := w.(reg := Registry.Do(w.reg, hash, st));
            && RegOK(hash, w'.reg) && w.reg.log <= w'.reg.log
            && (forall h :: 0 <= h < |w.hellos| ==> AckOK(hash, w', w.hellos[h]))
            && (forall k :: 0 <= k < |w.clients| ==> HoldOK(hash, w', w.clients[k]))
  {
    StepOK(hash, w.reg, st);
    LogGrows(w.reg, hash, st);
    forall id, s ensures Owned(hash, w.reg.log, id, s) ==> Owned(hash, Registry.Do(w.reg, hash, st).log, id, s) {
      OwnedGrows(hash, w.reg.log, Registry.Do(w.reg, hash, st).log, id, s);
    }
  }

  // Register answers a hello from the owner of a granted id with that id.
  lemma OwnerIsServed(hash: HashFn, r: Reg, desired: string, secret: string, draws: seq<string>)
    requires Proper(hash) && RegOK(hash, r) && r.up && r.op.Idle? && WellDrawn(draws)
    requires Normalise(desired) != "" && Owned(hash, r.log, Normalise(desired), secret)
    ensures Registry.Do(r, hash, Register(desired, secret, draws))
         == r.(log := r.log + [Reused(Normalise(desired), secret)])
    ensures GrantedIn(r.log, Normalise(desired))
  {
    var j :| 0 <= j < |r.log| && r.log[j].Granted? && r.log[j].id == Normalise(desired) &&
             hash(r.log[j].secret) == hash(secret);
    assert r.mem[r.log[j].id].hash == hash(secret) != "";
  }

  // A reused id that was granted before is owned by the secret it was reused with.
  lemma ReusedIsOwned(hash: HashFn, r: Reg, desired: string, secret: string, draws: seq<string>)
    requires Proper(hash) && RegOK(hash, r) && r.up && r.op.Idle? && WellDrawn(draws)
    requires |Registry.Do(r, hash, Register(desired, secret, draws)).log| > |r.log|
    requires GrantedIn(r.log, Normalise(desired))
    ensures Owned(hash, r.log, Normalise(desired), secret)
  {
    var d := Normalise(desired);
    var j :| 0 <= j < |r.log| && r.log[j].Granted? && r.log[j].id == d;
    assert r.mem[d].hash == hash(r.log[j].secret);
  }

  lemma ServedHello(hash: HashFn, w: World, h: nat, draws: seq<string>)
    requires Proper(hash) && WorldOK(hash, w) && h < |w.hellos| && w.hellos[h].pc.Queued?
    requires w.serving.None? && w.reg.up && w.reg.op.Idle? && WellDrawn(draws)
    ensures AckOK(hash, DoServe(w, hash, h, draws), DoServe(w, hash, h, draws).hellos[h])
  {
    var x := w.hellos[h];
    var r := Registry.Do(w.reg, hash, Register(x.desired, x.secret, draws));
    if |r.log| > |w.reg.log| && GrantedIn(w.reg.log, Normalise(x.desired)) {
      ReusedIsOwned(hash, w.reg, x.desired, x.secret, draws);
      LogGrows(w.reg, hash, Register(x.desired, x.secret, draws));
      OwnedGrows(hash, w.reg.log, r.log, Normalise(x.desired), x.secret);
    }
  }

  lemma ServedHold(hash: HashFn, w: World, h: nat, draws: seq<string>, c: Config)
    requires Proper(hash) && WorldOK(hash, w) && h < |w.hellos| && w.hellos[h].pc.Queued? && HoldOK(hash, w, c)
    requires w.serving.None? && w.reg.up && w.reg.op.Idle? && WellDrawn(draws)
    requires HoldOK(hash, w.(reg := Registry.Do(w.reg, hash, Register(w.hellos[h].desired, w.hellos[h].secret,
             draws))), c)
    ensures HoldOK(hash, DoServe(w, hash, h, draws), c)
  {
    if c.holds && c.latest == Some(h) {
      OwnerIsServed(hash, w.reg, w.hellos[h].desired, w.hellos[h].secret, draws);
    }
  }

  lemma ServeOK(hash: HashFn, w: World, h: nat, draws: seq<string>)
    requires Proper(hash) && WorldOK(hash, w) && h < |w.hellos| && w.hellos[h].pc.Queued?
    requires w.serving.None? && w.reg.up && w.reg.op.Idle? && WellDrawn(draws)
    ensures WorldOK(hash, DoServe(w, hash, h, draws))
  {
    var t := DoServe(w, hash, h, draws);
    RegStepKeeps(hash, w, Register(w.hellos[h].desired, w.hellos[h].secret, draws));
    ServedHello(hash, w, h, draws);
    forall k | 0 <= k < |w.clients| ensures HoldOK(hash, t, t.clients[k]) {
      ServedHold(hash, w, h, draws, w.clients[k]);
    }
  }

  lemma ReturnLogs(hash: HashFn, w: World)
    requires w.reg.op.Returning? && w.reg.op.what.Grant?
    ensures var what := w.reg.op.what;
            Owned(hash, Registry.Do(w.reg, hash, Return).log, what.id, what.secret)
  {
    var log := Registry.Do(w.reg, hash, Return).log;
    assert log[|log| - 1] == Granted(w.reg.op.what.id, w.reg.op.what.secret, w.reg.op.what.denied);
  }

  lemma InsideServing(hash: HashFn, w: World, st: Step)
    requires ServingOK(w) && Sensible(st) && (st.Save? ==> w.serving.None?)
    ensures ServingOK(DoInside(w, hash, st))
  {
  }

  lemma InsideOK(hash: HashFn, w: World, st: Step)
    requires Proper(hash) && WorldOK(hash, w) && Sensible(st) && (st.Save? ==> w.serving.None?)
    ensures WorldOK(hash, DoInside(w, hash, st))
  {
    var t := DoInside(w, hash, st);
    RegStepKeeps(hash, w, st);
    InsideServing(hash, w, st);
    if st.Return? && w.reg.op.Returning? && w.reg.op.what.Grant? {
      ReturnLogs(hash, w);
    }
    forall k | 0 <= k < |w.clients| ensures HoldOK(hash, t, t.clients[k]) {
      assert HoldOK(hash, w, w.clients[k]);
      assert HoldOK(hash, w.(reg := t.reg), w.clients[k]);
    }
  }

  lemma DeliverOK(hash: HashFn, w: World, h: nat)
    requires WorldOK(hash, w) && Listening(w, h)
    ensures WorldOK(hash, Do(w, hash, Deliver(h)))
  {
    var t, k := Do(w, hash, Deliver(h)), w.hellos[h].client;
    var c, ack := w.clients[k], w.hellos[h].pc.ack;
    assert AckOK(hash, w, w.hellos[h]) && HoldOK(hash, w, c);
    forall j | 0 <= j < |t.clients| ensures HoldOK(hash, t, t.clients[j]) {
      assert HoldOK(hash, w, w.clients[j]);
      if j == k {
        DeliveredHold(hash, w, h);
      }
    }
  }

  lemma DeliveredHold(hash: HashFn, w: World, h: nat)
    requires WorldOK(hash, w) && Listening(w, h)
    ensures var c := Stored(w.clients[w.hellos[h].client], w.hellos[h].desired, w.hellos[h].pc.ack);
            c.holds ==> Normalise(c.custom) != "" && Owned(hash, w.reg.log, Normalise(c.custom), c.secret)
  {
  }

  lemma ClientOK(hash: HashFn, w: World, e: Event)
    requires WorldOK(hash, w) && (e.Install? || e.SetCustom? || e.Connect?)
    ensures WorldOK(hash, Do(w, hash, e))
  {
    var t := Do(w, hash, e);
    forall k | 0 <= k < |t.clients| ensures HoldOK(hash, t, t.clients[k]) {
      if k < |w.clients| { assert HoldOK(hash, w, w.clients[k]); }
    }
  }

  lemma EventOK(hash: HashFn, w: World, e: Event)
    requires Proper(hash) && WorldOK(hash, w)
    ensures WorldOK(hash, Do(w, hash, e))
  {
    match e
    case Serve(h, draws) =>
      if h < |w.hellos| && w.hellos[h].pc.Queued? && w.serving.None? && w.reg.up && w.reg.op.Idle? && WellDrawn(draws) {
        ServeOK(hash, w, h, draws);
      }
    case Inside(st) => if Sensible(st) && (st.Save? ==> w.serving.None?) { InsideOK(hash, w, st); }
    case Deliver(h) => if Listening(w, h) { DeliverOK(hash, w, h); }
    case _ => ClientOK(hash, w, e);
  }

  lemma {:induction false} WorldReachable(hash: HashFn, events: seq<Event>)
    requires Proper(hash)
    ensures WorldOK(hash, Exec(NEW_WORLD, hash, events))
  {
    if events != [] {
      WorldReachable(hash, events[..|events| - 1]);
      EventOK(hash, Exec(NEW_WORLD, hash, events[..|events| - 1]), events[|events| - 1]);
    }
  }

  lemma GrantedGrows(a: seq<Reply>, b: seq<Reply>, id: string)
    requires a <= b
    ensures GrantedIn(a, id) ==> GrantedIn(b, id)
  {
    if GrantedIn(a, id) {
      var j :| 0 <= j < |a| && a[j].Granted? && a[j].id == id;
      assert b[j] == a[j];
    }
  }

  // The registry's part of an event.
  ghost function RegStep(e: Event, w: World): Option<Step> {
    match e
    case Serve(h, draws) =>
      if h < |w.hellos| && w.hellos[h].pc.Queued? && w.serving.None? && w.reg.up && w.reg.op.Idle? && WellDrawn(draws)
      then Some(Register(w.hellos[h].desired, w.hellos[h].secret, draws))
      else None
    case Inside(st) => if Sensible(st) && (st.Save? ==> w.serving.None?) then Some(st) else None
    case _ => None
  }

  lemma RegPart(hash: HashFn, w: World, e: Event)
    ensures var st := RegStep(e, w);
            Do(w, hash, e).reg == if st.Some? then Registry.Do(w.reg, hash, st.value) else w.reg
  {
  }

  lemma EventLogs(hash: HashFn, w: World, e: Event)
    ensures w.reg.log <= Do(w, hash, e).reg.log
  {
    RegPart(hash, w, e);
    if RegStep(e, w).Some? {
      LogGrows(w.reg, hash, RegStep(e, w).value);
    }
  }

  lemma EventTunnels(hash: HashFn, w: World, e: Event)
    requires TunnelsOK(w)
    ensures TunnelsOK(Do(w, hash, e))
  {
    EventLogs(hash, w, e);
    forall id ensures GrantedIn(w.reg.log, id) ==> GrantedIn(Do(w, hash, e).reg.log, id) {
      GrantedGrows(w.reg.log, Do(w, hash, e).reg.log, id);
    }
    if e.Inside? && e.st.Return? && w.reg.op.Returning? && w.reg.op.what.Grant? {
      ReturnGrants(hash, w);
    }
  }

  lemma ReturnGrants(hash: HashFn, w: World)
    requires w.reg.op.Returning? && w.reg.op.what.Grant?
    ensures GrantedIn(Registry.Do(w.reg, hash, Return).log, w.reg.op.what.id)
  {
    var log := Registry.Do(w.reg, hash, Return).log;
    assert log[|log| - 1] == Granted(w.reg.op.what.id, w.reg.op.what.secret, w.reg.op.what.denied);
  }

  lemma {:induction false} TunnelsReachable(hash: HashFn, events: seq<Event>)
    ensures TunnelsOK(Exec(NEW_WORLD, hash, events))
  {
    if events != [] {
      TunnelsReachable(hash, events[..|events| - 1]);
      EventTunnels(hash, Exec(NEW_WORLD, hash, events[..|events| - 1]), events[|events| - 1]);
    }
  }

  lemma {:induction false} AgreesInWorld(hash: HashFn, events: seq<Event>)
    requires Proper(hash)
    ensures Agrees(Exec(NEW_WORLD, hash, events).reg)
  {
    if events != [] {
      var w, e := Exec(NEW_WORLD, hash, events[..|events| - 1]), events[|events| - 1];
      AgreesInWorld(hash, events[..|events| - 1]);
      WorldReachable(hash, events[..|events| - 1]);
      RegPart(hash, w, e);
      if RegStep(e, w).Some? {
        StepAgrees(hash, w.reg, RegStep(e, w).value);
      }
    }
  }

  // ----------------------------------------------------------- which secrets keep an id

  // While the server is up, the secret opens the id.
  ghost predicate Opens(r: Reg, hash: HashFn, id: string, secret: string) {
    r.up ==> id in r.mem && VerifySecret(hash, r.mem[id].hash, secret)
  }

  ghost predicate OpensForever(w: World, hash: HashFn, id: string, secret: string) {
    forall more :: Opens(Exec(w, hash, more).reg, hash, id, secret)
  }

  // The file has the id, with a hash that the secret matches.
  predicate SavedFor(r: Reg, hash: HashFn, id: string, secret: string) {
    r.disk.Doc? && id in r.disk.recs && VerifySecret(hash, r.disk.recs[id].hash, secret)
  }

  lemma {:induction false} FixedInWorld(w: World, hash: HashFn, more: seq<Event>, id: string, h: string)
    requires Fixed(w.reg, id, h)
    ensures Fixed(Exec(w, hash, more).reg, id, h)
  {
    if more != [] {
      var v, e := Exec(w, hash, more[..|more| - 1]), more[|more| - 1];
      FixedInWorld(w, hash, more[..|more| - 1], id, h);
      RegPart(hash, v, e);
      if RegStep(e, v).Some? {
        FixedStep(v.reg, hash, RegStep(e, v).value, id, h);
      }
    }
  }

  lemma RestartReads(w: World, hash: HashFn)
    requires !w.reg.disk.Torn?
    ensures var t := Exec(w, hash, [Inside(Crash), Inside(Load)]).reg;
            t.up && t.mem == if w.reg.disk.Doc? then Valid(w.reg.disk.recs) else map[]
  {
    var es := [Inside(Crash), Inside(Load)];
    assert es[..1] == [es[0]] && es[..1][..0] == [];
    assert Exec(w, hash, es[..1]) == Do(w, hash, es[0]);
    assert Exec(w, hash, es) == Do(Do(w, hash, es[0]), hash, es[1]);
    RegPart(hash, w, es[0]);
    RegPart(hash, Do(w, hash, es[0]), es[1]);
  }

  /** Which secrets keep an id, exactly.  With no registration or save under way, a
      secret opens an id in every later state, whatever clients do and however often
      the server crashes, if and only if the file has the id with a hash it matches.
      So an id that was only reused from an entry no save has reached can be lost. */
  lemma KeptIffSaved(hash: HashFn, events: seq<Event>, id: string, secret: string)
    requires Proper(hash) && Exec(NEW_WORLD, hash, events).reg.op.Idle?
    ensures var w := Exec(NEW_WORLD, hash, events);
            OpensForever(w, hash, id, secret) <==> SavedFor(w.reg, hash, id, secret)
  {
    var w := Exec(NEW_WORLD, hash, events);
    WorldReachable(hash, events);
    AgreesInWorld(hash, events);
    if SavedFor(w.reg, hash, id, secret) {
      forall more ensures Opens(Exec(w, hash, more).reg, hash, id, secret) {
        FixedInWorld(w, hash, more, id, w.reg.disk.recs[id].hash);
      }
    } else {
      RestartReads(w, hash);
      assert !Opens(Exec(w, hash, [Inside(Crash), Inside(Load)]).reg, hash, id, secret);
    }
  }

  /** A custom id is sticky.  Once a client has read an ack for its present custom id,
      then whatever other clients do and however often the server crashes: if the ack
      granted the id or returned it after a grant, the hash of its stored secret is
      the registry's hash for the id in every later state, on disk and whenever the
      server is up in memory; and for any ack, with no registration or save under way,
      the secret opens the id in every later state if and only if the file has the id
      with a hash it matches. */
  lemma CustomIdSticky(hash: HashFn, events: seq<Event>, k: nat)
    requires Proper(hash)
    requires k < |Exec(NEW_WORLD, hash, events).clients| && Exec(NEW_WORLD, hash, events).clients[k].acked
    ensures var w := Exec(NEW_WORLD, hash, events);
            var c := w.clients[k];
            var id := Normalise(c.custom);
            && (c.holds ==>
                  && w.reg.disk.Doc? && id in w.reg.disk.recs && w.reg.disk.recs[id].hash == hash(c.secret)
                  && (w.reg.up ==> id in w.reg.mem && w.reg.mem[id].hash == hash(c.secret)))
            && (w.reg.op.Idle? ==> (OpensForever(w, hash, id, c.secret) <==> SavedFor(w.reg, hash, id, c.secret)))
  {
    WorldReachable(hash, events);
    var w := Exec(NEW_WORLD, hash, events);
    assert HoldOK(hash, w, w.clients[k]);
    if w.reg.op.Idle? {
      KeptIffSaved(hash, events, Normalise(w.clients[k].custom), w.clients[k].secret);
    }
  }

  /** Each later hello of that client gets its id back: while it waits it can only
      be queued or answered with reused and without a denial, and when it is served
      the answer is its id. */
  lemma EachLaterHelloReused(hash: HashFn, events: seq<Event>, k: nat, draws: seq<string>)
    requires Proper(hash)
    requires k < |Exec(NEW_WORLD, hash, events).clients| && Exec(NEW_WORLD, hash, events).clients[k].holds
    requires Exec(NEW_WORLD, hash, events).clients[k].latest.Some?
    ensures var w := Exec(NEW_WORLD, hash, events);
            var c, h := w.clients[k], w.clients[k].latest.value;
            var mine := Answered(Ack(Normalise(c.custom), true, false, "", true));
            && h < |w.hellos|
            && (w.hellos[h].pc.Queued? || w.hellos[h].pc == mine || w.hellos[h].pc.Delivered?)
            && (w.hellos[h].pc.Queued? && w.serving.None? && w.reg.up && w.reg.op.Idle? && WellDrawn(draws) ==>
                  Do(w, hash, Serve(h, draws)).hellos[h].pc == mine)
  {
    WorldReachable(hash, events);
    var w := Exec(NEW_WORLD, hash, events);
    var c, h := w.clients[k], w.clients[k].latest.value;
    assert HoldOK(hash, w, c);
    if w.hellos[h].pc.Queued? && w.reg.up && w.reg.op.Idle? && WellDrawn(draws) {
      OwnerIsServed(hash, w.reg, w.hellos[h].desired, w.hellos[h].secret, draws);
    }
  }

  /** Holding ends only when the client's own custom id is set anew. */
  lemma HoldsUntilChanged(hash: HashFn, w: World, e: Event, k: nat)
    requires WorldOK(hash, w) && k < |w.clients| && w.clients[k].holds
    requires !(e.SetCustom? && e.k == k)
    ensures k < |Do(w, hash, e).clients|
    ensures var c := Do(w, hash, e).clients[k];
            c.holds && c.custom == w.clients[k].custom && c.secret == w.clients[k].secret
  {
    assert HoldOK(hash, w, w.clients[k]);
  }

  // ------------------------------------------------------------ the same id again

  /** The same tunnel id again, exactly: a hello of a client whose last tunnel id had
      been granted is answered with that id if and only if its custom id is that id
      and its secret hashes like the registry's; and a registration it starts instead
      is for a different id. */
  lemma SameIdIffCustom(hash: HashFn, events: seq<Event>, k: nat, h: nat, draws: seq<string>)
    requires Proper(hash) && k < |Exec(NEW_WORLD, hash, events).clients| && Exec(NEW_WORLD, hash,
             events).clients[k].granted
    requires var w := Exec(NEW_WORLD, hash, events);
             && w.clients[k].latest == Some(h) && h < |w.hellos| && w.hellos[h].pc.Queued?
             && w.serving.None? && w.reg.up && w.reg.op.Idle? && WellDrawn(draws)
    ensures var w, id := Exec(NEW_WORLD, hash, events), Exec(NEW_WORLD, hash, events).clients[k].tunnel;
            var x, t := w.hellos[h], Do(Exec(NEW_WORLD, hash, events), hash, Serve(h, draws));
            && id in w.reg.mem
            && (t.hellos[h].pc.Answered? && t.hellos[h].pc.ack.id == id
                <==> Normalise(x.desired) == id && hash(x.secret) == w.reg.mem[id].hash)
            && (t.reg.op.Fresh? ==> t.reg.op.id != id)
  {
    TunnelsReachable(hash, events);
    WorldReachable(hash, events);
    var w := Exec(NEW_WORLD, hash, events);
    GrantedServed(hash, w, w.clients[k].tunnel, h, draws);
  }

  lemma GrantedServed(hash: HashFn, w: World, id: string, h: nat, draws: seq<string>)
    requires Proper(hash) && RegOK(hash, w.reg) && GrantedIn(w.reg.log, id)
    requires h < |w.hellos| && w.hellos[h].pc.Queued? && w.serving.None? && w.reg.up && w.reg.op.Idle? &&
             WellDrawn(draws)
    ensures var x, t := w.hellos[h], Do(w, hash, Serve(h, draws));
            && id in w.reg.mem
            && (t.hellos[h].pc.Answered? && t.hellos[h].pc.ack.id == id
                <==> Normalise(x.desired) == id && hash(x.secret) == w.reg.mem[id].hash)
            && (t.reg.op.Fresh? ==> t.reg.op.id != id)
  {
    var j :| 0 <= j < |w.reg.log| && w.reg.log[j].Granted? && w.reg.log[j].id == id;
    assert w.reg.mem[id].hash == hash(w.reg.log[j].secret) != "" && ValidTunnelID(id);
  }
}
