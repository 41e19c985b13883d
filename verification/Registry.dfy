/** The tunnel registry as a step machine over memory and two disk cells, the
    temporary file and the real one, with a crash possible between any two steps.

    Register, Save and SetTarget's save run under one mutex, so at most one of
    them is in progress.  Random ids and secrets come from the schedule; the hash
    is any function that never yields the empty string. */
module Registry {
  import opened Proto
  import opened Fold
  import opened Relay

  type HashFn = string -> string

  ghost predicate Proper(hash: HashFn) {
    forall s: string :: hash(s) != ""
  }

  // The persisted part of a tunnel.  An entry starts with the empty hash.
  datatype Rec = Rec(hash: string, target: string)

  type Records = map<string, Rec>

  // A file: absent, cut short by a crash or an error, or a whole document.
  datatype File = Missing | Torn | Doc(recs: Records)

  // What a save in progress is for.
  datatype Purpose = Grant(id: string, secret: string, denied: bool) | Plain

  datatype Op =
    | Idle
    | Fresh(id: string, denied: bool)            // entry inserted, generateSecret to come
    | Saving(what: Purpose)                      // at saveLocked
    | Writing(data: Records, what: Purpose)      // os.WriteFile under way
    | Renaming(data: Records, what: Purpose)     // temporary file complete
    | Returning(what: Purpose)                   // renamed, not yet returned

  // The successful returns of Register, in order.
  datatype Reply = Granted(id: string, secret: string, denied: bool) | Reused(id: string, secret: string)

  datatype Reg = Reg(up: bool, mem: Records, op: Op, tmp: File, disk: File, log: seq<Reply>)

  const NEW_REG: Reg := Reg(false, map[], Idle, Missing, Missing, [])

  datatype Step =
    | Register(desired: string, secret: string, draws: seq<string>)
    | NewSecret(s: Option<string>)      // generateSecret, None is an error
    | Save
    | Marshal                           // and os.WriteFile truncates the file
    | WriteFails | WriteDone
    | RenameFails | Rename
    | Return
    | SetTarget(id: string, target: string)
    | Crash
    | Load

  // --------------------------------------------------------------- id handling

  // unicode.IsSpace
  predicate IsSpace(c: char) {
    c == ' ' || '\t' <= c <= '\r' || (c >= '\U{85}' && WideSpace(c as int))
  }

  predicate WideSpace(n: int) {
    n == 0x85 || n == 0xA0 || n == 0x1680 || 0x2000 <= n <= 0x200A || 0x2028 <= n <= 0x2029
    || n == 0x202F || n == 0x205F || n == 0x3000
  }

  function TrimLeft(s: string): string {
    if s != [] && IsSpace(s[0]) then TrimLeft(s[1..]) else s
  }

  function TrimRight(s: string): string {
    if s != [] && IsSpace(s[|s| - 1]) then TrimRight(s[..|s| - 1]) else s
  }

  // Lower-cased and trimmed; anything that is not an id counts as no wish.
  function Normalise(desired: string): string {
    var d := Lower(TrimRight(TrimLeft(desired)));
    if ValidTunnelID(d) then d else ""
  }

  lemma NormaliseValid(id: string)
    requires ValidTunnelID(id)
    ensures Normalise(id) == id
  {
    assert Lower(id) == id;
  }

  function VerifySecret(hash: HashFn, stored: string, secret: string): bool {
    if stored == "" then secret == "" else stored == hash(secret)
  }

  /** The first drawn id that is free; None when the random source fails first. */
  function FirstFree(draws: seq<string>, used: Records): (r: Option<string>)
    ensures r.None? <==> forall k :: 0 <= k < |draws| ==> draws[k] in used
    ensures r.Some? ==> exists k :: 0 <= k < |draws| && r.value == draws[k] && draws[k] !in used
                                    && forall j :: 0 <= j < k ==> draws[j] in used
  {
    if draws == [] then None
    else if draws[0] !in used then Some(draws[0])
    else FirstFree(draws[1..], used)
  }

  // generateID only yields well-formed ids.
  predicate WellDrawn(draws: seq<string>) {
    forall k :: 0 <= k < |draws| ==> ValidTunnelID(draws[k])
  }

  // ------------------------------------------------------------------- steps

  function Insert(s: Reg, id: string, denied: bool): Reg {
    s.(mem := s.mem[id := Rec("", "")], op := Fresh(id, denied))
  }

  function DoRegister(s: Reg, hash: HashFn, desired: string, secret: string, draws: seq<string>): Reg {
    var d := Normalise(desired);
    if d != "" && d in s.mem && VerifySecret(hash, s.mem[d].hash, secret) then
      s.(log := s.log + [Reused(d, secret)])
    else if d != "" && d !in s.mem then Insert(s, d, false)
    else
      match FirstFree(draws, s.mem)
      case Some(id) => Insert(s, id, d != "")
      case None => s
  }

  function Valid(recs: Records): Records {
    map id | id in recs && ValidTunnelID(id) :: recs[id]
  }

  function Do(s: Reg, hash: HashFn, st: Step): Reg {
    match st
    case Register(desired, secret, draws) =>
      if s.up && s.op.Idle? && WellDrawn(draws) then DoRegister(s, hash, desired, secret, draws) else s
    case NewSecret(r) =>
      if s.op.Fresh? && s.op.id in s.mem then
        if r.None? then s.(op := Idle)
        else s.(mem := s.mem[s.op.id := s.mem[s.op.id].(hash := hash(r.value))],
                op := Saving(Grant(s.op.id, r.value, s.op.denied)))
      else s
    case Save => if s.up && s.op.Idle? then s.(op := Saving(Plain)) else s
    case Marshal => if s.op.Saving? then s.(op := Writing(s.mem, s.op.what), tmp := Torn) else s
    case WriteFails => if s.op.Writing? then s.(op := Idle) else s
    case WriteDone => if s.op.Writing? then s.(op := Renaming(s.op.data, s.op.what), tmp := Doc(s.op.data)) else s
    case RenameFails => if s.op.Renaming? then s.(op := Idle) else s
    case Rename =>
      if s.op.Renaming? then s.(op := Returning(s.op.what), disk := s.tmp, tmp := Missing) else s
    case Return =>
      if s.op.Returning? then
        s.(op := Idle, log := s.log + if s.op.what.Grant? then [Granted(s.op.what.id, s.op.what.secret,
          s.op.what.denied)] else [])
      else s
    case SetTarget(id, target) =>
      if s.up && id in s.mem then s.(mem := s.mem[id := s.mem[id].(target := target)]) else s
    case Crash => s.(up := false, mem := map[], op := Idle)
    case Load =>
      if s.up || s.disk.Torn? then s
      else s.(up := true, mem := if s.disk.Doc? then Valid(s.disk.recs) else map[])
  }

  function Exec(s: Reg, hash: HashFn, steps: seq<Step>): Reg {
    if steps == [] then s else Do(Exec(s, hash, steps[..|steps| - 1]), hash, steps[|steps| - 1])
  }

  // --------------------------------------------------------------- the invariant

  ghost predicate GrantedIn(log: seq<Reply>, id: string) {
    exists k :: 0 <= k < |log| && log[k].Granted? && log[k].id == id
  }

  // recs has every granted id with the hash of the secret it was granted with.
  ghost predicate Keeps(hash: HashFn, log: seq<Reply>, recs: Records) {
    forall k :: 0 <= k < |log| && log[k].Granted? ==>
      log[k].id in recs && recs[log[k].id].hash == hash(log[k].secret)
  }

  ghost predicate AllValid(recs: Records) {
    forall id :: id in recs ==> ValidTunnelID(id)
  }

  // The purpose of a save whose snapshot is recs.
  ghost predicate Holds(hash: HashFn, log: seq<Reply>, what: Purpose, recs: Records) {
    what.Grant? ==>
      what.id in recs && recs[what.id].hash == hash(what.secret) && !GrantedIn(log, what.id)
  }

  ghost predicate SnapshotOK(hash: HashFn, s: Reg, data: Records, what: Purpose) {
    Keeps(hash, s.log, data) && AllValid(data) && Holds(hash, s.log, what, data) && Holds(hash, s.log, what, s.mem)
  }

  ghost predicate OpOK(hash: HashFn, s: Reg) {
    match s.op
    case Idle => true
    case Fresh(id, _) => s.up && id in s.mem && !GrantedIn(s.log, id)
    case Saving(what) => s.up && Holds(hash, s.log, what, s.mem)
    case Writing(data, what) => s.up && SnapshotOK(hash, s, data, what)
    case Renaming(data, what) => s.up && SnapshotOK(hash, s, data, what) && s.tmp == Doc(data)
    case Returning(what) =>
      s.up && s.disk.Doc? && Holds(hash, s.log, what, s.disk.recs) && Holds(hash, s.log, what, s.mem)
  }

  ghost predicate Once(log: seq<Reply>) {
    forall j, k :: 0 <= j < k < |log| && log[j].Granted? && log[k].Granted? ==> log[j].id != log[k].id
  }

  ghost predicate OwnersOnly(hash: HashFn, log: seq<Reply>) {
    forall j, k :: 0 <= j < k < |log| && log[j].Granted? && log[k].Reused? && log[j].id == log[k].id ==>
      hash(log[k].secret) == hash(log[j].secret)
  }

  ghost predicate RegOK(hash: HashFn, s: Reg) {
    && (s.up ==> Keeps(hash, s.log, s.mem) && AllValid(s.mem))
    && (forall k :: 0 <= k < |s.log| && s.log[k].Granted? ==> s.disk.Doc?)
    && (s.disk.Doc? ==> Keeps(hash, s.log, s.disk.recs) && AllValid(s.disk.recs))
    && !s.disk.Torn?
    && OpOK(hash, s) && Once(s.log) && OwnersOnly(hash, s.log)
  }

  lemma ReuseOK(hash: HashFn, s: Reg, d: string, secret: string)
    requires Proper(hash) && RegOK(hash, s) && s.up && s.op.Idle?
    requires d in s.mem && VerifySecret(hash, s.mem[d].hash, secret)
    ensures RegOK(hash, s.(log := s.log + [Reused(d, secret)]))
  {
    var log := s.log + [Reused(d, secret)];
    forall j | 0 <= j < |s.log| && log[j].Granted? && log[j].id == d
      ensures hash(secret) == hash(log[j].secret)
    {
      assert s.mem[d].hash == hash(log[j].secret);
    }
  }

  lemma InsertOK(hash: HashFn, s: Reg, id: string, denied: bool)
    requires RegOK(hash, s) && s.up && s.op.Idle? && ValidTunnelID(id) && id !in s.mem
    ensures RegOK(hash, Insert(s, id, denied))
  {
    assert !GrantedIn(s.log, id);
  }

  lemma RegisterOK(hash: HashFn, s: Reg, desired: string, secret: string, draws: seq<string>)
    requires Proper(hash) && RegOK(hash, s) && s.up && s.op.Idle? && WellDrawn(draws)
    ensures RegOK(hash, DoRegister(s, hash, desired, secret, draws))
  {
    var d := Normalise(desired);
    if d != "" && d in s.mem && VerifySecret(hash, s.mem[d].hash, secret) {
      ReuseOK(hash, s, d, secret);
    } else if d != "" && d !in s.mem {
      InsertOK(hash, s, d, false);
    } else if FirstFree(draws, s.mem).Some? {
      InsertOK(hash, s, FirstFree(draws, s.mem).value, d != "");
    }
  }

  lemma NewSecretOK(hash: HashFn, s: Reg, r: Option<string>)
    requires RegOK(hash, s)
    ensures RegOK(hash, Do(s, hash, NewSecret(r)))
  {
    if s.op.Fresh? && r.Some? {
      var t := Do(s, hash, NewSecret(r));
      forall k | 0 <= k < |s.log| && s.log[k].Granted?
        ensures s.log[k].id in t.mem && t.mem[s.log[k].id].hash == hash(s.log[k].secret)
      {
        assert s.log[k].id != s.op.id;
      }
    }
  }

  lemma ReturnOK(hash: HashFn, s: Reg)
    requires RegOK(hash, s) && s.op.Returning? && s.op.what.Grant?
    ensures RegOK(hash, Do(s, hash, Return))
  {
    var g := Granted(s.op.what.id, s.op.what.secret, s.op.what.denied);
    var t := Do(s, hash, Return);
    assert t.log == s.log + [g];
    forall k | 0 <= k < |s.log| && s.log[k].Granted? ensures s.log[k].id != g.id {
    }
  }

  lemma DiskOK(hash: HashFn, s: Reg, st: Step)
    requires RegOK(hash, s)
    requires st.Save? || st.Marshal? || st.WriteFails? || st.WriteDone? || st.RenameFails? || st.Rename?
    ensures RegOK(hash, Do(s, hash, st))
  {
  }

  lemma TargetOK(hash: HashFn, s: Reg, id: string, target: string)
    requires RegOK(hash, s)
    ensures RegOK(hash, Do(s, hash, SetTarget(id, target)))
  {
  }

  lemma StepOK(hash: HashFn, s: Reg, st: Step)
    requires Proper(hash) && RegOK(hash, s)
    ensures RegOK(hash, Do(s, hash, st))
  {
    match st
    case Register(desired, secret, draws) =>
      if s.up && s.op.Idle? && WellDrawn(draws) { RegisterOK(hash, s, desired, secret, draws); }
    case NewSecret(r) => NewSecretOK(hash, s, r);
    case Return => if s.op.Returning? && s.op.what.Grant? { ReturnOK(hash, s); } else { assert s.log + [] == s.log; }
    case SetTarget(id, target) => TargetOK(hash, s, id, target);
    case Crash =>
    case Load =>
    case _ => DiskOK(hash, s, st);
  }

  lemma {:induction false} RegReachable(hash: HashFn, steps: seq<Step>)
    requires Proper(hash)
    ensures RegOK(hash, Exec(NEW_REG, hash, steps))
  {
    if steps != [] {
      RegReachable(hash, steps[..|steps| - 1]);
      StepOK(hash, Exec(NEW_REG, hash, steps[..|steps| - 1]), steps[|steps| - 1]);
    }
  }

  // -------------------------------------------------------------------- theorems

  /** Ownership survives crashes.  Over any history of registrations, target
      updates, saves, failures, crashes at any step and restarts, an id whose
      fresh registration returned success is on disk, and in memory whenever the
      server is up, with the hash of the secret it was granted with. */
  lemma OwnershipSurvives(hash: HashFn, steps: seq<Step>, k: nat)
    requires Proper(hash) && k < |Exec(NEW_REG, hash, steps).log| && Exec(NEW_REG, hash, steps).log[k].Granted?
    ensures var s := Exec(NEW_REG, hash, steps);
            var g := s.log[k];
            && s.disk.Doc? && g.id in s.disk.recs && s.disk.recs[g.id].hash == hash(g.secret)
            && (s.up ==> g.id in s.mem && s.mem[g.id].hash == hash(g.secret))
  {
    RegReachable(hash, steps);
  }

  lemma LogGrows(s: Reg, hash: HashFn, st: Step)
    ensures s.log <= Do(s, hash, st).log
  {
  }

  /** And it stays so: what has been granted is never forgotten later. */
  lemma {:induction false} GrantsKept(hash: HashFn, s: Reg, more: seq<Step>)
    ensures s.log <= Exec(s, hash, more).log
  {
    if more != [] {
      GrantsKept(hash, s, more[..|more| - 1]);
      LogGrows(Exec(s, hash, more[..|more| - 1]), hash, more[|more| - 1]);
    }
  }

  /** In the whole history an id is freshly allocated at most once, and after its
      grant it is returned as reused only for a secret with the granted hash. */
  lemma AllocatedOnceReturnedToOwner(hash: HashFn, steps: seq<Step>)
    requires Proper(hash)
    ensures Once(Exec(NEW_REG, hash, steps).log) && OwnersOnly(hash, Exec(NEW_REG, hash, steps).log)
  {
    RegReachable(hash, steps);
  }

  /** Register on a granted id, decided by the hash alone: the owner gets it back
      with reused, anyone else is told denied and gets a different id, or an error
      when the random source fails. */
  lemma GrantedIdDecision(hash: HashFn, steps: seq<Step>, k: nat, desired: string, secret: string, draws: seq<string>)
    requires Proper(hash) && k < |Exec(NEW_REG, hash, steps).log| && Exec(NEW_REG, hash, steps).log[k].Granted?
    requires Exec(NEW_REG, hash, steps).up && Exec(NEW_REG, hash, steps).op.Idle? && WellDrawn(draws)
    requires Normalise(desired) == Exec(NEW_REG, hash, steps).log[k].id
    ensures var s := Exec(NEW_REG, hash, steps);
            var g := s.log[k];
            var t := Do(s, hash, Register(desired, secret, draws));
            if hash(secret) == hash(g.secret) then t == s.(log := s.log + [Reused(g.id, secret)])
            else t.log == s.log && (t == s || (t.op.Fresh? && t.op.id != g.id && t.op.denied && t.op.id !in s.mem))
  {
    RegReachable(hash, steps);
    var s := Exec(NEW_REG, hash, steps);
    assert ValidTunnelID(s.log[k].id);
    assert s.mem[s.log[k].id].hash == hash(s.log[k].secret) != "";
  }

  /** A granted id is returned to exactly those who ask for it and have its secret:
      Register answers with it if and only if it is the id asked for and the secret
      hashes like the one it was granted with, and a fresh id is never it. */
  lemma ReturnedIffAsked(hash: HashFn, steps: seq<Step>, k: nat, desired: string, secret: string, draws: seq<string>)
    requires Proper(hash) && k < |Exec(NEW_REG, hash, steps).log| && Exec(NEW_REG, hash, steps).log[k].Granted?
    requires Exec(NEW_REG, hash, steps).up && Exec(NEW_REG, hash, steps).op.Idle? && WellDrawn(draws)
    ensures var s := Exec(NEW_REG, hash, steps);
            var g := s.log[k];
            var t := Do(s, hash, Register(desired, secret, draws));
            && (t.log == s.log + [Reused(g.id, secret)]
                <==> Normalise(desired) == g.id && hash(secret) == hash(g.secret))
            && (t.op.Fresh? ==> t.op.id != g.id)
  {
    RegReachable(hash, steps);
    var s := Exec(NEW_REG, hash, steps);
    assert ValidTunnelID(s.log[k].id);
    assert s.mem[s.log[k].id].hash == hash(s.log[k].secret) != "";
    var n, d := |s.log|, Normalise(desired);
    assert (s.log + [Reused(d, secret)])[n] == Reused(d, secret);
    assert (s.log + [Reused(s.log[k].id, secret)])[n] == Reused(s.log[k].id, secret);
  }

  // -------------------------------------------------- why only grants are owned

  ghost function ErrorThenCrash(id: string): seq<Step> {
    [Load, Register(id, "", []), NewSecret(None), Register(id, "", []), Crash, Load]
  }

  ghost function FreshGrant(id: string, s: string): seq<Step> {
    [Register(id, "", []), NewSecret(Some(s)), Marshal, WriteDone, Rename, Return]
  }

  lemma ExecSnoc(s: Reg, hash: HashFn, steps: seq<Step>, st: Step)
    ensures Exec(s, hash, steps + [st]) == Do(Exec(s, hash, steps), hash, st)
  {
    assert (steps + [st])[..|steps|] == steps;
  }

  lemma {:induction false} ExecIsRun(next: (Reg, Step) -> Reg, s: Reg, hash: HashFn, steps: seq<Step>)
    requires forall t: Reg, st: Step :: next(t, st) == Do(t, hash, st)
    ensures Exec(s, hash, steps) == Run(next, s, steps)
  {
    if steps != [] {
      ExecIsRun(next, s, hash, steps[..|steps| - 1]);
    }
  }

  lemma ExecAppend(s: Reg, hash: HashFn, a: seq<Step>, b: seq<Step>)
    ensures Exec(s, hash, a + b) == Exec(Exec(s, hash, a), hash, b)
  {
    var next := (t: Reg, st: Step) => Do(t, hash, st);
    var exec := (t: Reg, steps: seq<Step>) => Exec(t, hash, steps);
    forall t: Reg, steps: seq<Step> ensures exec(t, steps) == Run(next, t, steps) {
      ExecIsRun(next, t, hash, steps);
    }
    SameAppend(exec, next, s, a, b);
  }

  lemma FreshInserts(s: Reg, hash: HashFn, id: string)
    requires ValidTunnelID(id) && s.up && s.op.Idle? && id !in s.mem
    ensures Do(s, hash, Register(id, "", [])) == Insert(s, id, false)
  {
    NormaliseValid(id);
  }

  lemma EmptyReuses(s: Reg, hash: HashFn, id: string)
    requires ValidTunnelID(id) && s.up && s.op.Idle? && id in s.mem && s.mem[id].hash == ""
    ensures Do(s, hash, Register(id, "", [])) == s.(log := s.log + [Reused(id, "")])
  {
    NormaliseValid(id);
  }

  lemma ExecOne(s: Reg, hash: HashFn, a: Step)
    ensures Exec(s, hash, [a]) == Do(s, hash, a)
  {
    assert [a] == [] + [a];
    ExecSnoc(s, hash, [], a);
  }

  lemma ExecTwo(s: Reg, hash: HashFn, a: Step, b: Step)
    ensures Exec(s, hash, [a, b]) == Do(Do(s, hash, a), hash, b)
  {
    assert [a, b] == [a] + [b];
    ExecOne(s, hash, a);
    ExecSnoc(s, hash, [a], b);
  }

  lemma ExecThree(s: Reg, hash: HashFn, a: Step, b: Step, c: Step)
    ensures Exec(s, hash, [a, b, c]) == Do(Do(Do(s, hash, a), hash, b), hash, c)
  {
    assert [a, b, c] == [a, b] + [c];
    ExecTwo(s, hash, a, b);
    ExecSnoc(s, hash, [a, b], c);
  }

  lemma ErrorLeavesEntry(hash: HashFn, id: string)
    requires ValidTunnelID(id)
    ensures Exec(NEW_REG, hash, ErrorThenCrash(id)) == NEW_REG.(up := true, log := [Reused(id, "")])
  {
    var register := Register(id, "", []);
    FreshInserts(NEW_REG.(up := true), hash, id);
    ExecThree(NEW_REG, hash, Load, register, NewSecret(None));
    var left := NEW_REG.(up := true, mem := map[id := Rec("", "")]);
    assert Exec(NEW_REG, hash, [Load, register, NewSecret(None)]) == left;
    EmptyReuses(left, hash, id);
    ExecThree(left, hash, register, Crash, Load);
    assert ErrorThenCrash(id) == [Load, register, NewSecret(None)] + [register, Crash, Load];
    ExecAppend(NEW_REG, hash, [Load, register, NewSecret(None)], [register, Crash, Load]);
  }

  lemma GrantRuns(hash: HashFn, s: Reg, id: string, secret: string)
    requires ValidTunnelID(id) && s.up && s.op.Idle? && id !in s.mem
    ensures Exec(s, hash, FreshGrant(id, secret)).log == s.log + [Granted(id, secret, false)]
  {
    var first, second := [Register(id, "", []), NewSecret(Some(secret)), Marshal], [WriteDone, Rename, Return];
    FreshInserts(s, hash, id);
    ExecThree(s, hash, first[0], first[1], first[2]);
    ExecThree(Exec(s, hash, first), hash, second[0], second[1], second[2]);
    assert FreshGrant(id, secret) == first + second;
    ExecAppend(s, hash, first, second);
  }

  /** A success that is not a grant is not owned: when generating the secret fails,
      the entry stays with an empty hash, the empty secret then "reuses" it, and
      after a crash the same id is granted to somebody else. */
  lemma ErrorEntryChangesHands(hash: HashFn, id: string, secret: string)
    requires ValidTunnelID(id)
    ensures Exec(NEW_REG, hash, ErrorThenCrash(id) + FreshGrant(id, secret)).log
         == [Reused(id, ""), Granted(id, secret, false)]
  {
    ErrorLeavesEntry(hash, id);
    ExecAppend(NEW_REG, hash, ErrorThenCrash(id), FreshGrant(id, secret));
    GrantRuns(hash, Exec(NEW_REG, hash, ErrorThenCrash(id)), id, secret);
  }

  // ------------------------------------------------- exactly which successes last

  ghost predicate OnDisk(s: Reg, id: string, h: string) {
    s.disk.Doc? && id in s.disk.recs && s.disk.recs[id].hash == h
  }

  ghost predicate Has(recs: Records, id: string, h: string) {
    id in recs && recs[id].hash == h
  }

  // id has hash h on disk, in memory, and in every snapshot on its way to disk.
  ghost predicate Fixed(s: Reg, id: string, h: string) {
    && ValidTunnelID(id) && OnDisk(s, id, h)
    && (s.up ==> Has(s.mem, id, h)) && (!s.op.Idle? ==> s.up)
    && match s.op
       case Fresh(other, _) => other != id
       case Writing(data, _) => Has(data, id, h)
       case Renaming(data, _) => Has(data, id, h) && s.tmp == Doc(data)
       case _ => true
  }

  lemma FixedStep(s: Reg, hash: HashFn, st: Step, id: string, h: string)
    requires Fixed(s, id, h)
    ensures Fixed(Do(s, hash, st), id, h)
  {
  }

  lemma {:induction false} FixedForever(s: Reg, hash: HashFn, more: seq<Step>, id: string, h: string)
    requires Fixed(s, id, h)
    ensures Fixed(Exec(s, hash, more), id, h)
  {
    if more != [] {
      FixedForever(s, hash, more[..|more| - 1], id, h);
      FixedStep(Exec(s, hash, more[..|more| - 1]), hash, more[|more| - 1], id, h);
    }
  }

  // Whatever happens next, id keeps its hash while the server is up.
  ghost predicate Lasts(s: Reg, hash: HashFn, id: string)
    requires id in s.mem
  {
    forall more :: Exec(s, hash, more).up ==> Has(Exec(s, hash, more).mem, id, s.mem[id].hash)
  }

  lemma RestartLoses(s: Reg, hash: HashFn, id: string, h: string)
    requires s.up && !s.disk.Torn? && !OnDisk(s, id, h)
    ensures var t := Do(Do(s, hash, Crash), hash, Load); t.up && !Has(t.mem, id, h)
  {
  }

  /** Exactly when an entry lasts.  Between two calls on the registry, an id keeps
      its secret hash through every later history if and only if the file has it
      with that hash: so a success that reuses an entry no save has reached can be
      lost, and no other can. */
  lemma LastsIffOnDisk(hash: HashFn, steps: seq<Step>, id: string)
    requires Proper(hash) && Exec(NEW_REG, hash, steps).up && Exec(NEW_REG, hash, steps).op.Idle?
    requires id in Exec(NEW_REG, hash, steps).mem
    ensures var s := Exec(NEW_REG, hash, steps);
            Lasts(s, hash, id) <==> OnDisk(s, id, s.mem[id].hash)
  {
    RegReachable(hash, steps);
    var s := Exec(NEW_REG, hash, steps);
    var h := s.mem[id].hash;
    if OnDisk(s, id, h) {
      forall more ensures Exec(s, hash, more).up ==> Has(Exec(s, hash, more).mem, id, h) {
        FixedForever(s, hash, more, id, h);
      }
    } else {
      RestartLoses(s, hash, id, h);
      ExecTwo(s, hash, Crash, Load);
      assert !Has(Exec(s, hash, [Crash, Load]).mem, id, h);
    }
  }

  // --------------------------------------------------- memory and file never disagree

  ghost predicate HashesIn(a: Records, b: Records) {
    forall id :: id in a ==> Has(b, id, a[id].hash)
  }

  // What is on disk, or on its way there, is in memory with the same hash.
  ghost predicate Agrees(s: Reg) {
    && (s.up && s.disk.Doc? ==> HashesIn(s.disk.recs, s.mem))
    && match s.op
       case Fresh(id, _) => s.disk.Doc? ==> id !in s.disk.recs
       case Writing(data, _) => HashesIn(data, s.mem)
       case Renaming(data, _) => HashesIn(data, s.mem)
       case _ => true
  }

  lemma StepAgrees(hash: HashFn, s: Reg, st: Step)
    requires RegOK(hash, s) && Agrees(s)
    ensures Agrees(Do(s, hash, st))
  {
  }

  lemma {:induction false} AgreesReachable(hash: HashFn, steps: seq<Step>)
    requires Proper(hash)
    ensures Agrees(Exec(NEW_REG, hash, steps))
  {
    if steps != [] {
      var before := steps[..|steps| - 1];
      AgreesReachable(hash, before);
      RegReachable(hash, before);
      StepAgrees(hash, Exec(NEW_REG, hash, before), steps[|steps| - 1]);
    }
  }
}
