/**
 The remote entry coordinator: calls of `ensure_for_napcat` and `ensure_for_native`, cut at
 their await points, flip the `main` field of a shared `package.json` under one mutex per server.
 */
module Coordinator {
  import opened Common
  import opened JsonModel

  type Pid = nat
  type ServerId = string
  type MutexId = nat

  /** An installation tree on a server; each has one package file. */
  datatype Slot = Slot(server: ServerId, base: string)

  datatype PackageFile = NoFile | NotJson | Package(v: Json)

  datatype Mode = NapcatInject | Native

  const QQ_MAIN_NAPCAT_INJECT: string := "./loadNapCat.js"
  const QQ_MAIN_NATIVE: string := "./app_launcher/index.js"

  function Desired(mode: Mode): string {
    match mode case NapcatInject => QQ_MAIN_NAPCAT_INJECT case Native => QQ_MAIN_NATIVE
  }

  /** `Entered` up to `Finishing` hold the server's mutex. */
  datatype Pc =
    | Start
    | Waiting(m: MutexId)
    | Entered(m: MutexId)
    | Probing(m: MutexId)
    | Rereading(m: MutexId)
    | Rewriting(m: MutexId, fields: map<string, Json>)
    | Verifying(m: MutexId)
    | Finishing(m: MutexId, ok: bool)
    | Finished(ok: bool)

  /** A call; it is `clean` as long as no operation of its own has failed and nothing was found
      missing, and it has `seen` the NapCat files once it has checked that they are there. */
  datatype Proc = Proc(slot: Slot, mode: Mode, pc: Pc, clean: bool, seen: bool)

  datatype State = State(
    mutexOf: map<ServerId, MutexId>, next: MutexId, holder: map<MutexId, Pid>, files: map<Slot, PackageFile>,
    procs: map<Pid, Proc>)

  predicate Critical(pc: Pc) {
    pc.Entered? || pc.Probing? || pc.Rereading? || pc.Rewriting? || pc.Verifying? || pc.Finishing?
  }

  function FileAt(files: map<Slot, PackageFile>, slot: Slot): PackageFile {
    if slot in files then files[slot] else NoFile
  }

  /** The `main` string of a package file, if it has one. */
  function MainOf(f: PackageFile): Option<string> {
    match f
    case Package(v) => (match Get(v, "main") case Some(Str(s)) => Some(s) case _ => None)
    case _ => None
  }

  /** The part of a package file that is nobody's to change. */
  function Rest(f: PackageFile): PackageFile {
    match f
    case Package(Obj(fields)) => Package(Obj(fields - {"main"}))
    case _ => f
  }

  /** The only kind of package file whose `main` can be set. */
  predicate HoldsObject(f: PackageFile) {
    f.Package? && f.v.Obj?
  }

  // ---------------------------------------------------------------- steps

  ghost predicate Moved(s: State, s': State, p: Pid, pc: Pc) {
    p in s.procs && s'.procs == s.procs[p := s.procs[p].(pc := pc)]
  }

  /** The same, with an operation that went well or not. */
  ghost predicate Tried(s: State, s': State, p: Pid, pc: Pc, well: bool) {
    p in s.procs && s'.procs == s.procs[p := s.procs[p].(pc := pc, clean := s.procs[p].clean && well)]
  }

  ghost predicate Invoke(s: State, s': State, p: Pid, slot: Slot, mode: Mode) {
    p !in s.procs && s' == s.(procs := s.procs[p := Proc(slot, mode, Start, true, false)])
  }

  /** The map lookup of `with_server`, which adds a mutex for a new id. */
  ghost predicate Resolve(s: State, s': State, p: Pid) {
    && p in s.procs && s.procs[p].pc == Start
    && var server := s.procs[p].slot.server;
       if server in s.mutexOf then
         Moved(s, s', p, Waiting(s.mutexOf[server])) && s' == s.(procs := s'.procs)
       else
         Moved(s, s', p, Waiting(s.next))
         && s' == s.(procs := s'.procs, mutexOf := s.mutexOf[server := s.next], next := s.next + 1)
  }

  ghost predicate Enter(s: State, s': State, p: Pid) {
    && p in s.procs && s.procs[p].pc.Waiting? && s.procs[p].pc.m !in s.holder
    && Moved(s, s', p, Entered(s.procs[p].pc.m))
    && s' == s.(procs := s'.procs, holder := s.holder[s.procs[p].pc.m := p])
  }

  function AfterFlip(mode: Mode, m: MutexId): Pc {
    if mode == NapcatInject then Verifying(m) else Finishing(m, true)
  }

  /** The first read; a failed read counts as no entry at all. */
  ghost predicate ReadMain(s: State, s': State, p: Pid, fault: bool) {
    && p in s.procs && s.procs[p].pc.Entered? && s' == s.(procs := s'.procs)
    && var proc := s.procs[p];
       var current := if fault then None else MainOf(FileAt(s.files, proc.slot));
       Moved(s, s', p, if current == Some(Desired(proc.mode)) then AfterFlip(proc.mode, proc.pc.m) else Probing(proc.pc.m))
  }

  /** `set_remote_qq_package_main`: the file must exist, be read again, and hold an object. */
  ghost predicate Probe(s: State, s': State, p: Pid, fault: bool) {
    && p in s.procs && s.procs[p].pc.Probing? && s' == s.(procs := s'.procs)
    && var proc := s.procs[p];
       Tried(s, s', p, if fault || FileAt(s.files, proc.slot).NoFile? then Finishing(proc.pc.m, false)
                       else Rereading(proc.pc.m), !fault)
  }

  ghost predicate Reread(s: State, s': State, p: Pid, fault: bool) {
    && p in s.procs && s.procs[p].pc.Rereading? && s' == s.(procs := s'.procs)
    && var proc := s.procs[p];
       var file := FileAt(s.files, proc.slot);
       Tried(s, s', p, if !fault && file.Package? && file.v.Obj? then Rewriting(proc.pc.m, file.v.fields)
                       else Finishing(proc.pc.m, false), !fault)
  }

  /** The write happens or it does not. */
  ghost predicate Write(s: State, s': State, p: Pid, fault: bool) {
    && p in s.procs && s.procs[p].pc.Rewriting?
    && var proc := s.procs[p];
       if fault then Tried(s, s', p, Finishing(proc.pc.m, false), false) && s' == s.(procs := s'.procs)
       else Moved(s, s', p, AfterFlip(proc.mode, proc.pc.m))
            && s' == s.(procs := s'.procs,
                        files := s.files[proc.slot := Package(Obj(proc.pc.fields["main" := Str(Desired(proc.mode))]))])
  }

  /** The NapCat checks for the entry script and the core module. */
  ghost predicate Verify(s: State, s': State, p: Pid, found: bool) {
    && p in s.procs && s.procs[p].pc.Verifying? && s' == s.(procs := s'.procs)
    && var proc := s.procs[p];
       s'.procs == s.procs[p := proc.(pc := Finishing(proc.pc.m, found), clean := proc.clean && found, seen := found)]
  }

  /** The permit is dropped and the call returns. */
  ghost predicate Leave(s: State, s': State, p: Pid) {
    && p in s.procs && s.procs[p].pc.Finishing?
    && Moved(s, s', p, Finished(s.procs[p].pc.ok))
    && s' == s.(procs := s'.procs, holder := s.holder - {s.procs[p].pc.m})
  }

  ghost predicate Next(s: State, s': State, p: Pid) {
    || (exists slot, mode :: Invoke(s, s', p, slot, mode))
    || Resolve(s, s', p)
    || Enter(s, s', p)
    || (exists fault :: ReadMain(s, s', p, fault))
    || (exists fault :: Probe(s, s', p, fault))
    || (exists fault :: Reread(s, s', p, fault))
    || (exists fault :: Write(s, s', p, fault))
    || (exists found :: Verify(s, s', p, found))
    || Leave(s, s', p)
  }

  ghost predicate Init(s: State) {
    s.mutexOf == map[] && s.next == 0 && s.holder == map[] && s.procs == map[]
  }

  // ---------------------------------------------------------------- the invariant

  /** One mutex per server, all handed out below `next`. */
  ghost predicate Mutexes(s: State) {
    && (forall a | a in s.mutexOf :: s.mutexOf[a] < s.next)
    && forall a, b | a in s.mutexOf && b in s.mutexOf && s.mutexOf[a] == s.mutexOf[b] :: a == b
  }

  /** What a call knows at each place it can stand. */
  ghost predicate Placed(s: State, p: Pid, proc: Proc) {
    && (proc.pc.Waiting? || Critical(proc.pc) ==>
          proc.slot.server in s.mutexOf && s.mutexOf[proc.slot.server] == proc.pc.m)
    && (Critical(proc.pc) ==> proc.pc.m in s.holder && s.holder[proc.pc.m] == p)
    && (!proc.pc.Finishing? && !proc.pc.Finished? ==> proc.clean && !proc.seen)
    && (proc.pc == Finished(true) || (proc.pc.Finishing? && proc.pc.ok) ==> (proc.seen <==> proc.mode == NapcatInject))
    && (proc.pc.Verifying? ==> proc.mode == NapcatInject)
    && match proc.pc
       case Rewriting(_, fields) => FileAt(s.files, proc.slot) == Package(Obj(fields))
       case Verifying(_) => MainOf(FileAt(s.files, proc.slot)) == Some(Desired(proc.mode))
       case Finishing(_, ok) =>
         (ok ==> MainOf(FileAt(s.files, proc.slot)) == Some(Desired(proc.mode)))
         && (ok <==> proc.clean && HoldsObject(FileAt(s.files, proc.slot)))
       case Finished(ok) => ok <==> proc.clean && HoldsObject(FileAt(s.files, proc.slot))
       case _ => true
  }

  ghost predicate Inv(s: State) {
    Mutexes(s) && forall p | p in s.procs :: Placed(s, p, s.procs[p])
  }

  lemma SameServerSameHolder(s: State, p: Pid, q: Pid)
    requires Inv(s) && p in s.procs && q in s.procs
    requires Critical(s.procs[p].pc) && Critical(s.procs[q].pc) && s.procs[p].slot.server == s.procs[q].slot.server
    ensures p == q
  {
    assert Placed(s, p, s.procs[p]) && Placed(s, q, s.procs[q]);
  }

  /** A step of `p` that leaves the other servers' mutexes and files alone. */
  lemma Update(s: State, s': State, p: Pid)
    requires Inv(s) && p in s'.procs && s'.procs == s.procs[p := s'.procs[p]]
    requires forall a | a in s.mutexOf :: a in s'.mutexOf && s'.mutexOf[a] == s.mutexOf[a]
    requires forall m | m in s.holder && s.holder[m] != p :: m in s'.holder && s'.holder[m] == s.holder[m]
    requires forall slot | s'.files != s.files && (p !in s.procs || !Critical(s.procs[p].pc) || slot != s.procs[p].slot) ::
               FileAt(s'.files, slot) == FileAt(s.files, slot)
    requires forall slot :: HoldsObject(FileAt(s'.files, slot)) <==> HoldsObject(FileAt(s.files, slot))
    requires Mutexes(s') && Placed(s', p, s'.procs[p])
    ensures Inv(s')
  {
    forall q | q in s'.procs ensures Placed(s', q, s'.procs[q]) {
      if q != p {
        assert Placed(s, q, s.procs[q]);
        if Critical(s.procs[q].pc) && p in s.procs && Critical(s.procs[p].pc) && s.procs[p].slot == s.procs[q].slot {
          SameServerSameHolder(s, p, q);
        }
      }
    }
  }

  lemma WriteKeeps(s: State, s': State, p: Pid, fault: bool)
    requires Inv(s) && Write(s, s', p, fault)
    ensures Inv(s')
  {
    hide Desired;
    assert Placed(s, p, s.procs[p]);
    Update(s, s', p);
  }

  lemma ResolveKeeps(s: State, s': State, p: Pid)
    requires Inv(s) && Resolve(s, s', p)
    ensures Inv(s')
  {
    hide MainOf;
    Update(s, s', p);
  }

  lemma LockKeeps(s: State, s': State, p: Pid)
    requires Inv(s) && (Enter(s, s', p) || Leave(s, s', p))
    ensures Inv(s')
  {
    hide Desired, MainOf;
    assert Placed(s, p, s.procs[p]);
    Update(s, s', p);
  }

  lemma ReadMainKeeps(s: State, s': State, p: Pid, fault: bool)
    requires Inv(s) && ReadMain(s, s', p, fault)
    ensures Inv(s')
  {
    hide Desired;
    assert Placed(s, p, s.procs[p]);
    Update(s, s', p);
  }

  lemma LookingKeeps(s: State, s': State, p: Pid, outcome: bool)
    requires Inv(s) && (Probe(s, s', p, outcome) || Reread(s, s', p, outcome) || Verify(s, s', p, outcome))
    ensures Inv(s')
  {
    hide Desired;
    assert Placed(s, p, s.procs[p]);
    Update(s, s', p);
  }

  lemma InvokeKeeps(s: State, s': State, p: Pid, slot: Slot, mode: Mode)
    requires Inv(s) && Invoke(s, s', p, slot, mode)
    ensures Inv(s')
  {
    hide Desired, MainOf;
    Update(s, s', p);
  }

  lemma NextKeeps(s: State, s': State, p: Pid)
    requires Inv(s) && Next(s, s', p)
    ensures Inv(s')
  {
    hide Invoke, Resolve, Enter, ReadMain, Probe, Reread, Write, Verify, Leave, Inv;
    if slot, mode :| Invoke(s, s', p, slot, mode) {
      InvokeKeeps(s, s', p, slot, mode);
    } else if Resolve(s, s', p) {
      ResolveKeeps(s, s', p);
    } else if Enter(s, s', p) || Leave(s, s', p) {
      LockKeeps(s, s', p);
    } else if fault :| ReadMain(s, s', p, fault) {
      ReadMainKeeps(s, s', p, fault);
    } else if fault :| Write(s, s', p, fault) {
      WriteKeeps(s, s', p, fault);
    } else {
      var outcome :| Probe(s, s', p, outcome) || Reread(s, s', p, outcome) || Verify(s, s', p, outcome);
      LookingKeeps(s, s', p, outcome);
    }
  }

  /** A step changes nothing of any package file but its `main`. */
  lemma NextConserves(s: State, s': State, p: Pid, slot: Slot)
    requires Inv(s) && Next(s, s', p)
    ensures Rest(FileAt(s'.files, slot)) == Rest(FileAt(s.files, slot))
    ensures forall a | a in s.mutexOf :: a in s'.mutexOf && s'.mutexOf[a] == s.mutexOf[a]
  {
    assert p in s.procs ==> Placed(s, p, s.procs[p]);
    if fault :| Write(s, s', p, fault) {
      if !fault && slot == s.procs[p].slot {
        var fields := s.procs[p].pc.fields;
        assert fields["main" := Str(Desired(s.procs[p].mode))] - {"main"} == fields - {"main"};
      }
    }
  }

  // ---------------------------------------------------------------- runs

  ghost predicate SomeoneSteps(s: State, s': State) {
    exists p :: Next(s, s', p)
  }

  ghost predicate Run(run: seq<State>) {
    run != [] && Init(run[0]) && forall i | 0 <= i < |run| - 1 :: SomeoneSteps(run[i], run[i + 1])
  }

  lemma {:induction false} RunKeeps(run: seq<State>, i: nat)
    requires Run(run) && i < |run|
    ensures Inv(run[i])
  {
    if i > 0 {
      RunKeeps(run, i - 1);
      var p :| Next(run[i - 1], run[i], p);
      NextKeeps(run[i - 1], run[i], p);
    }
  }

  /** A server id keeps its mutex forever, and no package file ever loses or gains anything but
      its `main`, in any interleaving of any calls on any servers. */
  lemma {:induction false} RunConserves(run: seq<State>, i: nat, j: nat, slot: Slot, server: ServerId)
    requires Run(run) && i <= j < |run|
    ensures Rest(FileAt(run[j].files, slot)) == Rest(FileAt(run[i].files, slot))
    ensures server in run[i].mutexOf ==> server in run[j].mutexOf && run[j].mutexOf[server] == run[i].mutexOf[server]
    decreases j
  {
    if i < j {
      RunConserves(run, i, j - 1, slot, server);
      RunKeeps(run, j - 1);
      var p :| Next(run[j - 1], run[j], p);
      NextConserves(run[j - 1], run[j], p, slot);
    }
  }

  /** At most one call per server is between taking its mutex and dropping it. */
  lemma MutualExclusion(run: seq<State>, i: nat, p: Pid, q: Pid)
    requires Run(run) && i < |run| && p in run[i].procs && q in run[i].procs
    requires Critical(run[i].procs[p].pc) && Critical(run[i].procs[q].pc)
    requires run[i].procs[p].slot.server == run[i].procs[q].slot.server
    ensures p == q
  {
    RunKeeps(run, i);
    SameServerSameHolder(run[i], p, q);
  }

  /** The package file's `main` is the entry of this mode. */
  predicate IsSetFor(f: PackageFile, mode: Mode) {
    && f.Package? && f.v.Obj? && "main" in f.v.fields
    && f.v.fields["main"] == Str(if mode == NapcatInject then "./loadNapCat.js" else "./app_launcher/index.js")
  }

  /** A call that succeeds drops its mutex while `main` is its target, and leaves it free; for NapCat it
      has found the NapCat files in place. */
  lemma SuccessMeansTarget(run: seq<State>, i: nat, p: Pid)
    requires Run(run) && i + 1 < |run| && Leave(run[i], run[i + 1], p) && run[i].procs[p].pc.ok
    ensures var proc := run[i].procs[p];
      IsSetFor(FileAt(run[i + 1].files, proc.slot), proc.mode) && proc.pc.m !in run[i + 1].holder
      && (proc.seen <==> proc.mode == NapcatInject)
  {
    RunKeeps(run, i);
    assert Placed(run[i], p, run[i].procs[p]);
  }

  /** A call that has finished succeeded exactly if none of its operations failed, nothing it checks for
      was missing, and the package file held an object, as it did or did not from the beginning. */
  lemma SucceedsIff(run: seq<State>, i: nat, p: Pid)
    requires Run(run) && i < |run| && p in run[i].procs && run[i].procs[p].pc.Finished?
    ensures run[i].procs[p].pc.ok <==> run[i].procs[p].clean && HoldsObject(FileAt(run[0].files, run[i].procs[p].slot))
  {
    RunKeeps(run, i);
    assert Placed(run[i], p, run[i].procs[p]);
    RunConserves(run, 0, i, run[i].procs[p].slot, "");
    SameKind(FileAt(run[0].files, run[i].procs[p].slot), FileAt(run[i].files, run[i].procs[p].slot));
  }

  lemma SameKind(f: PackageFile, g: PackageFile)
    requires Rest(f) == Rest(g)
    ensures HoldsObject(f) <==> HoldsObject(g)
  {
  }

  /** While a call stands in its critical section, no other step touches its package file: what it
      read is what it overwrites. */
  lemma CriticalIsUndisturbed(s: State, s': State, p: Pid, q: Pid)
    requires Inv(s) && Next(s, s', q) && p != q && p in s.procs && Critical(s.procs[p].pc)
    ensures FileAt(s'.files, s.procs[p].slot) == FileAt(s.files, s.procs[p].slot)
    ensures p in s'.procs && s'.procs[p] == s.procs[p]
  {
    hide Desired, MainOf;
    if q in s.procs && Critical(s.procs[q].pc) && s.procs[q].slot == s.procs[p].slot {
      SameServerSameHolder(s, p, q);
    }
  }

  /** The two modes really exclude each other: after a success the other mode's target is not there. */
  lemma ModesExclude(f: PackageFile)
    ensures !(MainOf(f) == Some(Desired(NapcatInject)) && MainOf(f) == Some(Desired(Native)))
  {
    assert |QQ_MAIN_NAPCAT_INJECT| != |QQ_MAIN_NATIVE|;
  }
}
