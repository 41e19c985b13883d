/** The Registry object: each method is one call holding the mutex, and leaves the
    state its steps in module Registry lead to when nothing crashes. */
module RegistryStore {
  import opened Proto
  import opened Relay
  import opened Registry

  const ALPHABET: string := "abcdefghijklmnopqrstuvwxyz0123456789"

  /** generateID: eight random bytes become eight characters of the id alphabet. */
  method GenerateID(raw: seq<Byte>) returns (id: string)
    requires |raw| == 8
    ensures ValidTunnelID(id)
    ensures forall k :: 0 <= k < 8 ==> id[k] == ALPHABET[raw[k] % 36]
  {
    var b := new char[8](_ => 'a');
    for k := 0 to 8
      invariant forall j :: 0 <= j < k ==> b[j] == ALPHABET[raw[j] % 36] && IsIdChar(b[j])
    {
      AlphabetOK(raw[k] % 36);
      b[k] := ALPHABET[raw[k] % 36];
    }
    id := b[..];
  }

  lemma AlphabetOK(k: nat)
    requires k < 36
    ensures |ALPHABET| == 36 && IsIdChar(ALPHABET[k])
  {
  }

  // How the file system lets a save down.
  datatype Fault = NoFault | WriteFault | RenameFault

  datatype Result = Ok(id: string, reused: bool, denied: bool, newSecret: string) | Err

  ghost function SaveSteps(f: Fault): seq<Step> {
    match f
    case NoFault => [Marshal, WriteDone, Rename, Return]
    case WriteFault => [Marshal, WriteFails]
    case RenameFault => [Marshal, WriteDone, RenameFails]
  }

  ghost function RegisterSteps(desired: string, secret: string, draws: seq<string>, generated: Option<string>,
    f: Fault): seq<Step> {
    [Register(desired, secret, draws), NewSecret(generated)] + SaveSteps(f)
  }

  // ------------------------------------------------------- where the steps lead

  ghost function Saved(s: Reg, f: Fault): Reg
    requires s.op.Saving?
  {
    match f
    case NoFault =>
      s.(op := Idle, tmp := Missing, disk := Doc(s.mem),
         log := s.log + if s.op.what.Grant? then [Granted(s.op.what.id, s.op.what.secret, s.op.what.denied)] else [])
    case WriteFault => s.(op := Idle, tmp := Torn)
    case RenameFault => s.(op := Idle, tmp := Doc(s.mem))
  }

  lemma SaveLeads(s: Reg, hash: HashFn, f: Fault)
    requires s.op.Saving?
    ensures Exec(s, hash, SaveSteps(f)) == Saved(s, f)
  {
    ExecTwo(s, hash, Marshal, if f.WriteFault? then WriteFails else WriteDone);
    match f
    case NoFault =>
      assert SaveSteps(f) == [Marshal, WriteDone] + [Rename, Return];
      ExecAppend(s, hash, [Marshal, WriteDone], [Rename, Return]);
      ExecTwo(Exec(s, hash, [Marshal, WriteDone]), hash, Rename, Return);
    case WriteFault =>
    case RenameFault =>
      assert SaveSteps(f) == [Marshal, WriteDone] + [RenameFails];
      ExecSnoc(s, hash, [Marshal, WriteDone], RenameFails);
  }

  lemma {:induction false} IdleLeads(s: Reg, hash: HashFn, steps: seq<Step>)
    requires s.op.Idle?
    requires forall k :: 0 <= k < |steps| ==>
      steps[k].NewSecret? || steps[k].Marshal? || steps[k].WriteFails? || steps[k].WriteDone?
      || steps[k].RenameFails? || steps[k].Rename? || steps[k].Return?
    ensures Exec(s, hash, steps) == s
  {
    if steps != [] {
      IdleLeads(s, hash, steps[..|steps| - 1]);
    }
  }

  lemma RegisterLeads(s: Reg, hash: HashFn, desired: string, secret: string, draws: seq<string>,
    generated: Option<string>, f: Fault)
    ensures var t := Do(Do(s, hash, Register(desired, secret, draws)), hash, NewSecret(generated));
            Exec(s, hash, RegisterSteps(desired, secret, draws, generated, f)) ==
            if t.op.Saving? then Saved(t, f) else Exec(t, hash, SaveSteps(f))
  {
    var a, b := Register(desired, secret, draws), NewSecret(generated);
    ExecAppend(s, hash, [a, b], SaveSteps(f));
    ExecTwo(s, hash, a, b);
    var t := Exec(s, hash, [a, b]);
    if t.op.Saving? {
      SaveLeads(t, hash, f);
    }
  }

  // Loading one more record.
  lemma LoadedOne(recs: Records, left: Records, id: string)
    requires id in left && id in recs
    ensures var before, after := Valid(recs - left.Keys), Valid(recs - (left - {id}).Keys);
            after == if ValidTunnelID(id) then before[id := recs[id]] else before
  {
  }

  lemma SmallerMap(m: Records, id: string)
    requires id in m
    ensures |m - {id}| < |m|
  {
    assert (m - {id}).Keys == m.Keys - {id};
  }

  lemma MergeOne(a: Records, b: Records, id: string, r: Rec)
    ensures a + b[id := r] == (a + b)[id := r]
  {
  }

  // ----------------------------------------------------------------- the object

  class Store {
    const hash: HashFn
    var tunnels: Records
    var tmp: File
    var disk: File
    ghost var log: seq<Reply>

    ghost function State(): Reg
      reads this
    {
      Reg(true, tunnels, Idle, tmp, disk, log)
    }

    constructor (h: HashFn, d: File, t: File)
      ensures hash == h && State() == Reg(true, map[], Idle, t, d, [])
    {
      hash := h;
      tunnels, tmp, disk, log := map[], t, d, [];
    }

    /** saveLocked: temporary file, then rename; a failure leaves the real file. */
    method SaveLocked(f: Fault) returns (ok: bool)
      modifies this`tmp, this`disk
      ensures ok <==> f.NoFault?
      ensures State().(log := []) == Saved(old(State()).(op := Saving(Plain), log := []), f)
    {
      tmp := Torn;
      if f.WriteFault? {
        return false;
      }
      tmp := Doc(tunnels);
      if f.RenameFault? {
        return false;
      }
      disk, tmp := tmp, Missing;
      return true;
    }

    method Save(f: Fault) returns (ok: bool)
      modifies this`tmp, this`disk
      ensures ok <==> f.NoFault?
      ensures State() == Exec(old(State()), hash, [Step.Save] + SaveSteps(f))
    {
      ok := SaveLocked(f);
      ghost var s := old(State());
      ExecAppend(s, hash, [Step.Save], SaveSteps(f));
      ExecOne(s, hash, Step.Save);
      SaveLeads(Do(s, hash, Step.Save), hash, f);
      assert s.log + [] == s.log;
    }

    // The retry loop: draw until an id is free or the random source fails.
    method DrawID(draws: seq<string>) returns (free: Option<string>)
      ensures free == FirstFree(draws, tunnels)
    {
      var k := 0;
      while k < |draws| && draws[k] in tunnels
        invariant k <= |draws| && FirstFree(draws, tunnels) == FirstFree(draws[k..], tunnels)
      {
        k := k + 1;
      }
      return if k == |draws| then None else Some(draws[k]);
    }

    // The id a registration comes to, and whether it is an old one; none if the random
    // source fails.
    method Choose(desired: string, secret: string, draws: seq<string>)
      returns (id: Option<string>, reused: bool, denied: bool)
      requires WellDrawn(draws)
      ensures Do(State(), hash, Step.Register(desired, secret, draws)) ==
              if id.None? then State()
              else if reused then State().(log := log + [Reused(id.value, secret)])
              else Insert(State(), id.value, denied)
    {
      var d := Normalise(desired);
      reused, denied := false, false;
      if d != "" {
        if d !in tunnels {
          return Some(d), false, false;
        }
        if VerifySecret(hash, tunnels[d].hash, secret) {
          return Some(d), true, false;
        }
        denied := true;
      }
      id := DrawID(draws);
    }

    /** Register, as the uninterrupted run of its steps; the returned values say
        which success, if any, that run recorded. */
    method Register(desired: string, secret: string, draws: seq<string>, generated: Option<string>, f: Fault)
      returns (r: Result)
      requires WellDrawn(draws)
      modifies this
      ensures State() == Exec(old(State()), hash, RegisterSteps(desired, secret, draws, generated, f))
      ensures State().log == old(log) +
                if r.Err? then [] else if r.reused then [Reused(r.id, secret)] else [Granted(r.id, r.newSecret,
                  r.denied)]
    {
      ghost var s := State();
      RegisterLeads(s, hash, desired, secret, draws, generated, f);
      var id, reused, denied := Choose(desired, secret, draws);
      if id.None? {
        IdleLeads(s, hash, SaveSteps(f));
        return Err;
      }
      if reused {
        log := log + [Reused(id.value, secret)];
        IdleLeads(State(), hash, SaveSteps(f));
        return Ok(id.value, true, false, "");
      }
      r := Allocate(id.value, denied, generated, f);
      if generated.None? {
        IdleLeads(State(), hash, SaveSteps(f));
      }
    }

    // The new entry, its secret and the save.
    method Allocate(id: string, denied: bool, generated: Option<string>, f: Fault) returns (r: Result)
      modifies this
      ensures var t := Do(Insert(old(State()), id, denied), hash, NewSecret(generated));
              State() == if t.op.Saving? then Saved(t, f) else t
      ensures r == if generated.Some? && f.NoFault? then Ok(id, false, denied, generated.value) else Err
    {
      tunnels := tunnels[id := Rec("", "")];
      if generated.None? {
        return Err;
      }
      tunnels := tunnels[id := tunnels[id].(hash := hash(generated.value))];
      var ok := SaveLocked(f);
      if !ok {
        return Err;
      }
      log := log + [Granted(id, generated.value, denied)];
      return Ok(id, false, denied, generated.value);
    }

    /** Load: a missing file is a fresh start, a torn one an error, and records
        whose id is not well formed are skipped. */
    method Load() returns (ok: bool)
      modifies this`tunnels
      ensures ok <==> !disk.Torn?
      ensures tunnels == if disk.Doc? then old(tunnels) + Valid(disk.recs) else old(tunnels)
    {
      if disk.Doc? {
        LoadRecords(disk.recs);
      }
      return !disk.Torn?;
    }

    method LoadRecords(recs: Records)
      modifies this`tunnels
      ensures tunnels == old(tunnels) + Valid(recs)
    {
      var left := recs;
      ghost var loaded: Records := map[];
      assert Valid(recs - left.Keys) == map[];
      while left != map[]
        invariant left.Keys <= recs.Keys
        invariant loaded == Valid(recs - left.Keys) && tunnels == old(tunnels) + loaded
        decreases |left|
      {
        var id :| id in left;
        var rest := left - {id};
        LoadedOne(recs, left, id);
        SmallerMap(left, id);
        left := rest;
        if ValidTunnelID(id) {
          MergeOne(old(tunnels), loaded, id, recs[id]);
          tunnels := tunnels[id := recs[id]];
          loaded := loaded[id := recs[id]];
        }
      }
      assert recs - left.Keys == recs;
    }

    /** SetTarget: the in-memory target changes even if the save then fails. */
    method SetTarget(id: string, target: string, f: Fault) returns (found: bool)
      modifies this`tunnels, this`tmp, this`disk
      ensures found <==> id in old(tunnels)
      ensures !found ==> State() == old(State())
      ensures found ==> State() == Exec(old(State()), hash, [Step.SetTarget(id, target), Step.Save] + SaveSteps(f))
    {
      if id !in tunnels {
        return false;
      }
      ghost var s := old(State());
      tunnels := tunnels[id := tunnels[id].(target := target)];
      var ok := SaveLocked(f);
      ExecAppend(s, hash, [Step.SetTarget(id, target), Step.Save], SaveSteps(f));
      ExecTwo(s, hash, Step.SetTarget(id, target), Step.Save);
      SaveLeads(Exec(s, hash, [Step.SetTarget(id, target), Step.Save]), hash, f);
      assert s.log + [] == s.log;
      return true;
    }
  }
}
