/**
 The bot repository under concurrent calls.

 Each call is cut at its await points; `Next` is one step of one call.  `write_lock` guards the
 read-modify-write of `bot.json`; the cache is the in-memory list every reader answers from.
 `versions` is the history of the list, `log` the writes that made it, `faults` the calls whose
 load or write the disk has failed.
 */
module BotRepo {
  import opened Common
  import opened BotConfigModel
  import opened BotCodec
  import opened BotMigration
  import opened BotRoundTrip

  type Bots = seq<BotConfig>

  // ---------------------------------------------------------------- the lists the calls work on

  predicate HasId(bots: Bots, id: nat) {
    exists b | b in bots :: b.bot.qqId == id
  }

  function Find(bots: Bots, id: nat): Option<BotConfig> {
    if bots == [] then None else if bots[0].bot.qqId == id then Some(bots[0]) else Find(bots[1..], id)
  }

  function Upserted(bots: Bots, config: BotConfig): Bots {
    if bots == [] then [config]
    else if bots[0].bot.qqId == config.bot.qqId then [config] + bots[1..]
    else [bots[0]] + Upserted(bots[1..], config)
  }

  function Without(bots: Bots, id: nat): Bots {
    if bots == [] then []
    else (if bots[0].bot.qqId == id then [] else [bots[0]]) + Without(bots[1..], id)
  }

  /** `iter_mut().find`, then assignment or `push`. */
  method UpsertInto(bots: Bots, config: BotConfig) returns (r: Bots)
    ensures r == Upserted(bots, config)
  {
    var i := 0;
    while i < |bots| && bots[i].bot.qqId != config.bot.qqId
      invariant i <= |bots| && forall j | 0 <= j < i :: bots[j].bot.qqId != config.bot.qqId
    {
      i := i + 1;
    }
    UpsertedAt(bots, config, i);
    r := if i < |bots| then bots[i := config] else bots + [config];
  }

  lemma {:induction false} UpsertedAt(bots: Bots, config: BotConfig, i: nat)
    requires i <= |bots| && forall j | 0 <= j < i :: bots[j].bot.qqId != config.bot.qqId
    requires i < |bots| ==> bots[i].bot.qqId == config.bot.qqId
    ensures Upserted(bots, config) == if i < |bots| then bots[i := config] else bots + [config]
    decreases i
  {
    if i > 0 {
      UpsertedAt(bots[1..], config, i - 1);
      assert bots == [bots[0]] + bots[1..];
    }
  }

  /** `retain`. */
  method Retain(bots: Bots, id: nat) returns (r: Bots)
    ensures r == Without(bots, id)
  {
    r := [];
    for i := 0 to |bots|
      invariant Without(bots, id) == r + Without(bots[i..], id)
    {
      assert bots[i..][1..] == bots[i + 1..];
      if bots[i].bot.qqId != id {
        r := r + [bots[i]];
      }
    }
  }

  /** After an upsert the id is bound to the new configuration and every other binding is as before. */
  lemma {:induction false} UpsertedFind(bots: Bots, config: BotConfig, id: nat)
    ensures Find(Upserted(bots, config), id) == if id == config.bot.qqId then Some(config) else Find(bots, id)
  {
    if bots != [] && bots[0].bot.qqId != config.bot.qqId {
      UpsertedFind(bots[1..], config, id);
    }
  }

  lemma {:induction false} WithoutFind(bots: Bots, id: nat, other: nat)
    ensures Find(Without(bots, id), other) == if other == id then None else Find(bots, other)
  {
    if bots != [] {
      var rest := Without(bots[1..], id);
      WithoutFind(bots[1..], id, other);
      assert [] + rest == rest && ([bots[0]] + rest)[1..] == rest;
    }
  }

  lemma {:induction false} UpsertedMembers(bots: Bots, config: BotConfig)
    ensures config in Upserted(bots, config)
    ensures forall b | b in Upserted(bots, config) :: b == config || b in bots
  {
    if bots != [] && bots[0].bot.qqId != config.bot.qqId {
      UpsertedMembers(bots[1..], config);
    }
  }

  lemma DistinctTail(bots: Bots)
    requires DistinctIds(bots) && bots != []
    ensures DistinctIds(bots[1..]) && forall b | b in bots[1..] :: b.bot.qqId != bots[0].bot.qqId
  {
  }

  lemma DistinctCons(b: BotConfig, bots: Bots)
    requires DistinctIds(bots) && forall x | x in bots :: x.bot.qqId != b.bot.qqId
    ensures DistinctIds([b] + bots)
  {
  }

  lemma {:induction false} UpsertedDistinct(bots: Bots, config: BotConfig)
    requires DistinctIds(bots)
    ensures DistinctIds(Upserted(bots, config))
  {
    if bots != [] {
      DistinctTail(bots);
      if bots[0].bot.qqId == config.bot.qqId {
        DistinctCons(config, bots[1..]);
      } else {
        UpsertedDistinct(bots[1..], config);
        UpsertedMembers(bots[1..], config);
        DistinctCons(bots[0], Upserted(bots[1..], config));
      }
    }
  }

  lemma {:induction false} WithoutSpec(bots: Bots, id: nat)
    requires DistinctIds(bots)
    ensures DistinctIds(Without(bots, id)) && forall b | b in Without(bots, id) :: b in bots
  {
    if bots != [] {
      DistinctTail(bots);
      WithoutSpec(bots[1..], id);
      if bots[0].bot.qqId != id {
        DistinctCons(bots[0], Without(bots[1..], id));
      }
    }
  }

  predicate SpellsRemote(s: string) {
    |s| == 6 && LowerAscii(s[0]) == 'r' && LowerAscii(s[1]) == 'e' && LowerAscii(s[2]) == 'm'
    && LowerAscii(s[3]) == 'o' && LowerAscii(s[4]) == 't' && LowerAscii(s[5]) == 'e'
  }

  /** `validate_runtime_matrix`. */
  predicate Supported(c: BotConfig) {
    match c.bot.target
    case Local => c.bot.deployment == Native
    case Server(id) => !Blank(id) && !SpellsRemote(Trim(id))
  }

  /** What `upsert` lets through. */
  predicate Accepted(lower: string -> string, c: BotConfig) {
    Valid(lower, c) && Supported(c)
  }

  /** An upsert is accepted exactly if the configuration is valid, a local bot runs natively, and a
      server is named by something that is neither blank nor "remote" in any mixture of cases. */
  lemma AcceptedIff(lower: string -> string, c: BotConfig)
    ensures Accepted(lower, c) <==>
      && c.bot.qqId != 0 && Reachable(c.connect) && NamesApart(lower, NamesOf(c.connect))
      && (c.bot.target.Local? ==> c.bot.deployment.Native?)
      && (c.bot.target.Server? ==> Trim(c.bot.target.id) != "" && !SaysRemote(Trim(c.bot.target.id)))
  {
    hide Valid, Reachable, NamesApart, NamesOf, Trim;
    ValidIff(lower, c);
    if c.bot.target.Server? {
      SpellsRemoteIff(Trim(c.bot.target.id));
    }
  }

  predicate SaysRemote(s: string) {
    |s| == 6 && s[0] in "rR" && s[1] in "eE" && s[2] in "mM" && s[3] in "oO" && s[4] in "tT" && s[5] in "eE"
  }

  lemma SpellsRemoteIff(s: string)
    ensures SpellsRemote(s) <==> SaysRemote(s)
  {
    LowerIs('r', 'R');
    LowerIs('e', 'E');
    LowerIs('m', 'M');
    LowerIs('o', 'O');
    LowerIs('t', 'T');
  }

  lemma AllBut(lower: string -> string, bots: Bots, config: BotConfig)
    requires Durable(lower, bots) && Valid(lower, config)
    ensures Durable(lower, Upserted(bots, config)) <==> DurableBot(config)
  {
    hide Valid, DurableBot;
    UpsertedDistinct(bots, config);
    UpsertedMembers(bots, config);
    var r := Upserted(bots, config);
    var i :| 0 <= i < |r| && r[i] == config;
    forall j | 0 <= j < |r| ensures Valid(lower, r[j]) && (r[j] != config ==> DurableBot(r[j])) {
      assert r[j] in r;
      if r[j] != config {
        var k :| 0 <= k < |bots| && bots[k] == r[j];
      }
    }
  }

  /** What any list of a run satisfies: it could be stored, though it need not load back. */
  ghost predicate Storable(lower: string -> string, bots: Bots) {
    AllValid(lower, bots) && DistinctIds(bots)
    && forall i | 0 <= i < |bots| && bots[i].bot.target.Server? :: !Blank(bots[i].bot.target.id)
  }

  /** What tells, of an accepted bot, that it can be read back. */
  predicate ReadsBack(b: BotConfig) {
    b.bot.name != "" && (b.bot.target.Server? ==> !SpellsLocal(b.bot.target.id))
  }

  lemma DurableIffReadsBack(lower: string -> string, bots: Bots)
    ensures Durable(lower, bots) <==> Storable(lower, bots) && forall b | b in bots :: ReadsBack(b)
  {
    hide Valid, Blank, SpellsLocal;
    if Durable(lower, bots) {
      forall b | b in bots ensures ReadsBack(b) {
        var k :| 0 <= k < |bots| && bots[k] == b;
        assert DurableBot(bots[k]);
      }
    }
    forall i | 0 <= i < |bots| && Durable(lower, bots) ensures bots[i].bot.target.Server? ==> !Blank(bots[i].bot.target.id) {
      assert DurableBot(bots[i]);
    }
    forall i | 0 <= i < |bots| && Storable(lower, bots) && ReadsBack(bots[i]) ensures DurableBot(bots[i]) {
    }
  }

  /** Writing an accepted configuration into a list that loads keeps the file and the memory the
      same exactly when the name is not empty and the server id does not spell "local". */
  lemma UpsertKeepsCoherenceIff(env: Env, lower: string -> string, bots: Bots, config: BotConfig)
    requires Durable(lower, bots) && Accepted(lower, config)
    ensures Load(env, lower, Doc(BuildRootPayload(Upserted(bots, config)))) == Ok(Upserted(bots, config))
      <==> config.bot.name != "" && (config.bot.target.Server? ==> !SpellsLocal(config.bot.target.id))
  {
    hide Load, Durable, Valid;
    AllBut(lower, bots, config);
    RoundTripIffDurable(env, lower, Upserted(bots, config));
  }

  /** What a write makes of a storable list can be stored. */
  lemma NewListStorable(lower: string -> string, op: Op, bots: Bots)
    requires Storable(lower, bots) && (op.Upsert? ==> Accepted(lower, op.config))
    ensures Storable(lower, Apply(op, bots))
  {
    hide Valid, Blank;
    match op {
      case Upsert(config) =>
        UpsertedDistinct(bots, config);
        UpsertedMembers(bots, config);
      case Delete(id) =>
        WithoutSpec(bots, id);
      case _ =>
    }
    var r := Apply(op, bots);
    forall j | 0 <= j < |r| ensures Valid(lower, r[j]) && (r[j].bot.target.Server? ==> !Blank(r[j].bot.target.id)) {
      assert r[j] in r;
      if r[j] in bots {
        var k :| 0 <= k < |bots| && bots[k] == r[j];
      }
    }
  }

  // ---------------------------------------------------------------- calls

  type Pid = nat

  datatype Op = List | Get(id: nat) | Count | Upsert(config: BotConfig) | Delete(id: nat)

  datatype Reply =
    | Listed(bots: Bots)
    | Found(bot: Option<BotConfig>)
    | Counted(n: nat)
    | Stored
    | Removed(removed: bool)
    | Failed

  /** Where a call stands; from `Filling` to `Returning` it holds the write lock. */
  datatype Pc =
    | Start
    | WantLock
    | Filling
    | Loading
    | Loaded(bots: Bots)
    | Releasing
    | Snapshot
    | Writing(bots: Bots, before: FileState)
    | Committing(bots: Bots)
    | Returning(reply: Reply)
    | Reading
    | Done(reply: Reply)

  /** A call: `began` is the version when it was made, `at` the version its reply speaks of. */
  datatype Call = Call(op: Op, pc: Pc, began: nat, at: nat)

  type Version = Result<Bots, LoadError>

  datatype State = State(
    disk: FileState, lock: Option<Pid>, cache: Option<Bots>, calls: map<Pid, Call>,
    versions: seq<Version>, log: seq<Op>, faults: set<Pid>)

  predicate IsReader(op: Op) {
    op.List? || op.Get? || op.Count?
  }

  predicate Holding(pc: Pc) {
    pc.Filling? || pc.Loading? || pc.Loaded? || pc.Releasing? || pc.Snapshot? || pc.Writing? || pc.Committing?
    || pc.Returning?
  }

  /** What a call does to the list. */
  function Apply(op: Op, bots: Bots): Bots {
    match op
    case Upsert(config) => Upserted(bots, config)
    case Delete(id) => Without(bots, id)
    case _ => bots
  }

  /** What a call that succeeds answers, from the list it acts on. */
  function Answer(op: Op, bots: Bots): Reply {
    match op
    case List => Listed(bots)
    case Get(id) => Found(Find(bots, id))
    case Count => Counted(|bots|)
    case Upsert(_) => Stored
    case Delete(id) => Removed(HasId(bots, id))
  }

  /** What a reader answers from the cache, filled or not. */
  function FromCache(op: Op, cache: Option<Bots>): Reply {
    match cache
    case Some(bots) => Answer(op, bots)
    case None => match op case Get(_) => Found(None) case Count => Counted(0) case _ => Failed
  }

  ghost predicate Moved(s: State, s': State, p: Pid, pc: Pc) {
    p in s.calls && s'.calls == s.calls[p := s.calls[p].(pc := pc)]
  }

  ghost predicate SameHistory(s: State, s': State) {
    s'.versions == s.versions && s'.log == s.log
  }

  // ---------------------------------------------------------------- steps

  ghost predicate Invoke(s: State, s': State, p: Pid, op: Op) {
    p !in s.calls && |s.versions| > 0 && s' == s.(calls := s.calls[p := Call(op, Start, |s.versions| - 1, 0)])
  }

  /** The first check: readers look at the cache, `upsert` validates. */
  ghost predicate Check(lower: string -> string, s: State, s': State, p: Pid) {
    && p in s.calls && s.calls[p].pc == Start && s' == s.(calls := s'.calls)
    && var op := s.calls[p].op;
       Moved(s, s', p, if IsReader(op) then (if s.cache.Some? then Reading else WantLock)
                       else if op.Upsert? && !Accepted(lower, op.config) then Done(Failed) else WantLock)
  }

  ghost predicate Acquire(s: State, s': State, p: Pid) {
    && p in s.calls && s.calls[p].pc == WantLock && s.lock.None?
    && Moved(s, s', p, Filling) && s' == s.(calls := s'.calls, lock := Some(p))
  }

  function AfterFill(op: Op): Pc {
    if IsReader(op) then Releasing else Snapshot
  }

  /** The second check, under the lock. */
  ghost predicate Fill(s: State, s': State, p: Pid) {
    && p in s.calls && s.calls[p].pc == Filling && s' == s.(calls := s'.calls)
    && Moved(s, s', p, if s.cache.Some? then AfterFill(s.calls[p].op) else Loading)
  }

  /** `load_from_disk`, which may also fail to read or to join. */
  ghost predicate LoadDisk(env: Env, lower: string -> string, s: State, s': State, p: Pid, faulty: bool) {
    && p in s.calls && s.calls[p].pc == Loading
    && s' == s.(calls := s'.calls, faults := if faulty then s.faults + {p} else s.faults)
    && Moved(s, s', p, if !faulty && Load(env, lower, s.disk).Ok? then Loaded(Load(env, lower, s.disk).value)
                       else Returning(Failed))
  }

  ghost predicate FillCache(s: State, s': State, p: Pid) {
    && p in s.calls && s.calls[p].pc.Loaded?
    && Moved(s, s', p, AfterFill(s.calls[p].op))
    && s' == s.(calls := s'.calls, cache := Some(s.calls[p].pc.bots))
  }

  /** A reader drops the lock, and only then reads the cache again. */
  ghost predicate Release(s: State, s': State, p: Pid) {
    && p in s.calls && s.calls[p].pc == Releasing
    && Moved(s, s', p, Reading) && s' == s.(calls := s'.calls, lock := None)
  }

  ghost predicate Read(s: State, s': State, p: Pid) {
    && p in s.calls && s.calls[p].pc == Reading && |s.versions| > 0
    && s' == s.(calls := s.calls[p := s.calls[p].(pc := Done(FromCache(s.calls[p].op, s.cache)), at := |s.versions| - 1)])
  }

  /** A writer takes its copy of the list and either starts the transaction or has nothing to do. */
  ghost predicate TakeSnapshot(s: State, s': State, p: Pid) {
    && p in s.calls && s.calls[p].pc == Snapshot && |s.versions| > 0
    && var op := s.calls[p].op;
       var pc := if s.cache.None? then Returning(Failed)
                 else if op.Delete? && |Apply(op, s.cache.value)| == |s.cache.value| then Returning(Removed(false))
                 else Writing(Apply(op, s.cache.value), s.disk);
       s' == s.(calls := s.calls[p := s.calls[p].(pc := pc, at := |s.versions| - 1)])
  }

  /** While the transaction runs the file may be anything. */
  ghost predicate Flux(s: State, s': State, p: Pid) {
    p in s.calls && s.calls[p].pc.Writing? && s' == s.(disk := s'.disk)
  }

  ghost predicate FinishWrite(s: State, s': State, p: Pid) {
    && p in s.calls && s.calls[p].pc.Writing?
    && Moved(s, s', p, Committing(s.calls[p].pc.bots))
    && s' == s.(calls := s'.calls, disk := Doc(BuildRootPayload(s.calls[p].pc.bots)))
  }

  /** A failed transaction has put the file back. */
  ghost predicate FailWrite(s: State, s': State, p: Pid) {
    && p in s.calls && s.calls[p].pc.Writing?
    && Moved(s, s', p, Returning(Failed))
    && s' == s.(calls := s'.calls, disk := s.calls[p].pc.before, faults := s.faults + {p})
  }

  ghost predicate Commit(s: State, s': State, p: Pid) {
    && p in s.calls && s.calls[p].pc.Committing?
    && var op := s.calls[p].op;
       var bots := s.calls[p].pc.bots;
       Moved(s, s', p, Returning(if op.Delete? then Removed(true) else Stored))
       && s' == s.(calls := s'.calls, cache := Some(bots), versions := s.versions + [Ok(bots)], log := s.log + [op])
  }

  ghost predicate Return(s: State, s': State, p: Pid) {
    && p in s.calls && s.calls[p].pc.Returning?
    && Moved(s, s', p, Done(s.calls[p].pc.reply)) && s' == s.(calls := s'.calls, lock := None)
  }

  ghost predicate Next(lower: string -> string, s: State, s': State, p: Pid) {
    || (exists op :: Invoke(s, s', p, op))
    || Check(lower, s, s', p)
    || Acquire(s, s', p)
    || Fill(s, s', p)
    || (exists env, faulty :: LoadDisk(env, lower, s, s', p, faulty))
    || FillCache(s, s', p)
    || Release(s, s', p)
    || Read(s, s', p)
    || TakeSnapshot(s, s', p)
    || Flux(s, s', p)
    || FinishWrite(s, s', p)
    || FailWrite(s, s', p)
    || Commit(s, s', p)
    || Return(s, s', p)
  }

  /** A fresh repository over any file. */
  ghost predicate Init(env: Env, lower: string -> string, s: State) {
    && s.lock.None? && s.cache.None? && s.calls == map[]
    && s.versions == [Load(env, lower, s.disk)] && s.log == [] && s.faults == {}
  }

  // ---------------------------------------------------------------- the invariant

  /** The writes of the log, applied one after the other, make the versions. */
  ghost predicate History(lower: string -> string, versions: seq<Version>, log: seq<Op>) {
    && |versions| == |log| + 1
    && (forall i | 0 <= i < |versions| && versions[i].Ok? :: Storable(lower, versions[i].value))
    && forall i | 0 <= i < |log| :: versions[i].Ok? && versions[i + 1] == Ok(Apply(log[i], versions[i].value))
  }

  function Current(s: State): Version
    requires s.versions != []
  {
    s.versions[|s.versions| - 1]
  }

  function HolderPc(s: State): Pc {
    if s.lock.Some? && s.lock.value in s.calls then s.calls[s.lock.value].pc else Start
  }

  /** The file loads as the newest version, or it is that version as it was written out. */
  ghost predicate Agrees(env: Env, lower: string -> string, s: State, file: FileState)
    requires s.versions != []
  {
    match s.cache
    case None => Load(env, lower, file) == Current(s)
    case Some(bots) => Load(env, lower, file) == Ok(bots) || file == Doc(BuildRootPayload(bots))
  }

  /** What the disk holds, seen from the call that may be writing it. */
  ghost predicate DiskAgrees(env: Env, lower: string -> string, s: State)
    requires s.versions != []
  {
    match HolderPc(s)
    case Writing(_, before) => Agrees(env, lower, s, before)
    case Committing(bots) => s.disk == Doc(BuildRootPayload(bots))
    case _ => Agrees(env, lower, s, s.disk)
  }

  ghost predicate CacheAgrees(s: State)
    requires s.versions != []
  {
    s.cache.Some? ==> Current(s) == Ok(s.cache.value)
  }

  ghost predicate OneHolder(s: State) {
    && (s.lock.Some? ==> s.lock.value in s.calls)
    && forall p | p in s.calls :: Holding(s.calls[p].pc) <==> s.lock == Some(p)
  }

  /** A reply is the answer on one version between the call and the reply; a write is the very
      write that follows that version in the log. */
  ghost predicate Explained(s: State, c: Call, reply: Reply) {
    reply == Failed
    || (c.began <= c.at < |s.versions| && s.versions[c.at].Ok? && reply == Answer(c.op, s.versions[c.at].value)
        && (!IsReader(c.op) && reply != Removed(false) ==> c.at < |s.log| && s.log[c.at] == c.op))
  }

  /** What a call knows at each place it can stand. */
  ghost predicate Placed(lower: string -> string, s: State, c: Call) {
    && c.began < |s.versions|
    && (c.op.Upsert? && c.pc != Start && !c.pc.Done? ==> Accepted(lower, c.op.config))
    && match c.pc
       case Loading => s.cache.None?
       case Loaded(bots) => s.cache.None? && Current(s) == Ok(bots)
       case Releasing => s.cache.Some? && IsReader(c.op)
       case Reading => s.cache.Some? && IsReader(c.op)
       case Snapshot => s.cache.Some? && !IsReader(c.op)
       case Writing(bots, _) => Pending(lower, s, c, bots)
       case Committing(bots) => Pending(lower, s, c, bots)
       case Returning(reply) => Explained(s, c, reply)
       case Done(reply) => Explained(s, c, reply)
       case _ => true
  }

  ghost predicate Pending(lower: string -> string, s: State, c: Call, bots: Bots) {
    s.cache.Some? && !IsReader(c.op) && bots == Apply(c.op, s.cache.value) && Storable(lower, bots)
    && |s.versions| > 0 && c.at == |s.versions| - 1 && (c.op.Delete? ==> |bots| != |s.cache.value|)
  }

  /** A call that has committed a write. */
  predicate Wrote(c: Call) {
    !IsReader(c.op) && (c.pc.Returning? || c.pc.Done?) && c.pc.reply != Failed && c.pc.reply != Removed(false)
  }

  ghost predicate Owned(s: State, i: nat) {
    exists p | p in s.calls :: Wrote(s.calls[p]) && s.calls[p].at == i
  }

  /** No two committed writes share a place of the log, and every place has its call. */
  ghost predicate Owners(s: State) {
    && (forall p, q | p in s.calls && q in s.calls && p != q && Wrote(s.calls[p]) && Wrote(s.calls[q]) ::
          s.calls[p].at != s.calls[q].at)
    && forall i: nat | i < |s.log| :: Owned(s, i)
  }

  predicate Ended(c: Call) {
    c.pc.Returning? || c.pc.Done?
  }

  /** What makes a call fail: it is refused, the disk fails it, or the file did not load to begin with. */
  ghost predicate Doomed(lower: string -> string, s: State, p: Pid)
    requires p in s.calls && s.versions != []
  {
    (s.calls[p].op.Upsert? && !Accepted(lower, s.calls[p].op.config)) || p in s.faults || s.versions[0].Err?
  }

  ghost predicate WhyFailed(lower: string -> string, s: State)
    requires s.versions != []
  {
    && (forall p | p in s.faults :: p in s.calls && Ended(s.calls[p]))
    && forall p | p in s.calls && Ended(s.calls[p]) :: s.calls[p].pc.reply == Failed <==> Doomed(lower, s, p)
  }

  ghost predicate Inv(env: Env, lower: string -> string, s: State) {
    && History(lower, s.versions, s.log) && DiskAgrees(env, lower, s) && CacheAgrees(s) && OneHolder(s)
    && Owners(s) && WhyFailed(lower, s) && forall p | p in s.calls :: Placed(lower, s, s.calls[p])
  }

  // ---------------------------------------------------------------- every step keeps it

  lemma {:induction false} WithoutChanges(bots: Bots, id: nat)
    ensures |Without(bots, id)| <= |bots|
    ensures |Without(bots, id)| == |bots| <==> !HasId(bots, id)
  {
    if bots != [] {
      WithoutChanges(bots[1..], id);
      assert HasId(bots, id) <==> bots[0].bot.qqId == id || HasId(bots[1..], id) by {
        assert forall b :: b in bots <==> b == bots[0] || b in bots[1..];
      }
    }
  }

  lemma InitKeeps(env: Env, lower: string -> string, s: State)
    requires Init(env, lower, s)
    ensures Inv(env, lower, s)
  {
    hide Load, Storable;
    if s.versions[0].Ok? {
      LoadedIsDurable(env, lower, s.disk);
      DurableIffReadsBack(lower, s.versions[0].value);
    }
  }

  lemma OthersPlaced(lower: string -> string, s: State, s': State, c: Call)
    requires s.versions != [] && s.versions <= s'.versions && s.log <= s'.log && (s.cache.Some? ==> s'.cache.Some?)
    requires Holding(c.pc) ==> SameHistory(s, s') && s'.cache == s.cache
    requires Placed(lower, s, c)
    ensures Placed(lower, s', c)
  {
    hide Storable, Accepted, Apply, Answer;
  }

  /** A step of `p` that neither commits nor changes what `p` has committed. */
  ghost predicate WroteSame(s: State, s': State, p: Pid) {
    && s'.log == s.log && p in s'.calls && s'.calls == s.calls[p := s'.calls[p]]
    && (Wrote(s'.calls[p]) <==> p in s.calls && Wrote(s.calls[p]))
    && (Wrote(s'.calls[p]) ==> s'.calls[p].at == s.calls[p].at)
  }

  lemma OwnersStay(s: State, s': State, p: Pid)
    requires Owners(s) && WroteSame(s, s', p)
    ensures Owners(s')
  {
    hide Wrote;
    forall i: nat | i < |s'.log| ensures Owned(s', i) {
      assert Owned(s, i);
      var q :| q in s.calls && Wrote(s.calls[q]) && s.calls[q].at == i;
      assert q in s'.calls && Wrote(s'.calls[q]) && s'.calls[q].at == i;
    }
  }

  lemma OwnersGrow(env: Env, lower: string -> string, s: State, s': State, p: Pid)
    requires Inv(env, lower, s) && Commit(s, s', p)
    ensures Owners(s')
  {
    hide Load, Storable, Accepted, Apply, Answer, DiskAgrees, CacheAgrees;
    assert Placed(lower, s, s.calls[p]) && Wrote(s'.calls[p]) && s'.calls[p].at == |s.log|;
    forall q | q in s.calls && q != p && Wrote(s.calls[q]) ensures s.calls[q].at < |s.log| {
      assert Placed(lower, s, s.calls[q]);
    }
    forall i: nat | i < |s'.log| ensures Owned(s', i) {
      if i < |s.log| {
        assert Owned(s, i);
        var q :| q in s.calls && Wrote(s.calls[q]) && s.calls[q].at == i;
        assert q != p && q in s'.calls && Wrote(s'.calls[q]);
      }
    }
  }

  ghost predicate EndsRightly(lower: string -> string, s: State, p: Pid)
    requires p in s.calls && s.versions != []
  {
    && (p in s.faults ==> Ended(s.calls[p]))
    && (Ended(s.calls[p]) ==> (s.calls[p].pc.reply == Failed <==> Doomed(lower, s, p)))
  }

  lemma FailuresStay(lower: string -> string, s: State, s': State, p: Pid)
    requires s.versions != [] && s.versions <= s'.versions && WhyFailed(lower, s)
    requires p in s'.calls && s'.calls == s.calls[p := s'.calls[p]]
    requires s.faults <= s'.faults <= s.faults + {p} && EndsRightly(lower, s', p)
    ensures WhyFailed(lower, s')
  {
    hide Accepted;
  }

  /** The file fails to load only before anything was read or written. */
  lemma FirstVersion(lower: string -> string, s: State)
    requires History(lower, s.versions, s.log)
    ensures s.versions != [] && (Current(s).Err? <==> s.versions[0].Err?)
  {
    hide Storable, Apply;
    if s.log != [] {
      assert s.versions[|s.log| - 1 + 1] == Ok(Apply(s.log[|s.log| - 1], s.versions[|s.log| - 1].value));
    }
  }

  /** A step of `p`: what has to be shown of `p` alone for the invariant to survive. */
  lemma Update(env: Env, lower: string -> string, s: State, s': State, p: Pid)
    requires Inv(env, lower, s) && p in s'.calls && s'.calls == s.calls[p := s'.calls[p]]
    requires s.versions <= s'.versions && s.log <= s'.log && (s.cache.Some? ==> s'.cache.Some?)
    requires s.lock != Some(p) && s.lock.Some? ==> SameHistory(s, s') && s'.cache == s.cache && s'.lock == s.lock
    requires s'.lock == Some(p) || s'.lock == (if s.lock == Some(p) then None else s.lock)
    requires Holding(s'.calls[p].pc) <==> s'.lock == Some(p)
    requires History(lower, s'.versions, s'.log) && DiskAgrees(env, lower, s') && CacheAgrees(s') && Placed(lower, s', s'.calls[p])
    requires WroteSame(s, s', p) || Owners(s')
    requires s.faults <= s'.faults <= s.faults + {p} && EndsRightly(lower, s', p)
    ensures Inv(env, lower, s')
  {
    hide Placed, DiskAgrees, Storable, Apply, WhyFailed, EndsRightly, Owners;
    if WroteSame(s, s', p) {
      OwnersStay(s, s', p);
    }
    FailuresStay(lower, s, s', p);
    forall q | q in s'.calls ensures Placed(lower, s', s'.calls[q]) {
      if q != p {
        assert Holding(s.calls[q].pc) ==> s.lock == Some(q);
        OthersPlaced(lower, s, s', s.calls[q]);
      }
    }
  }

  lemma InvokeKeeps(env: Env, lower: string -> string, s: State, s': State, p: Pid, op: Op)
    requires Inv(env, lower, s) && Invoke(s, s', p, op)
    ensures Inv(env, lower, s')
  {
    hide Load, Storable, Accepted, History;
    Update(env, lower, s, s', p);
  }

  lemma CheckKeeps(env: Env, lower: string -> string, s: State, s': State, p: Pid)
    requires Inv(env, lower, s) && Check(lower, s, s', p)
    ensures Inv(env, lower, s')
  {
    hide Load, Storable, Accepted, History;
    Update(env, lower, s, s', p);
  }

  lemma AcquireKeeps(env: Env, lower: string -> string, s: State, s': State, p: Pid)
    requires Inv(env, lower, s) && Acquire(s, s', p)
    ensures Inv(env, lower, s')
  {
    hide Load, Storable, Accepted, History;
    Update(env, lower, s, s', p);
  }

  lemma FillKeeps(env: Env, lower: string -> string, s: State, s': State, p: Pid)
    requires Inv(env, lower, s) && Fill(s, s', p)
    ensures Inv(env, lower, s')
  {
    hide Load, Storable, Accepted, History;
    assert s.lock == Some(p);
    Update(env, lower, s, s', p);
  }

  lemma LoadDiskKeeps(env: Env, env': Env, lower: string -> string, s: State, s': State, p: Pid, faulty: bool)
    requires Inv(env, lower, s) && LoadDisk(env', lower, s, s', p, faulty)
    ensures Inv(env, lower, s')
  {
    hide Load, Storable, Accepted, History;
    assert s.lock == Some(p);
    LoadIgnoresSecretStore(env, env', lower, s.disk);
    FirstVersion(lower, s);
    Update(env, lower, s, s', p);
  }

  lemma FillCacheKeeps(env: Env, lower: string -> string, s: State, s': State, p: Pid)
    requires Inv(env, lower, s) && FillCache(s, s', p)
    ensures Inv(env, lower, s')
  {
    hide Load, Storable, Accepted, History;
    assert s.lock == Some(p);
    Update(env, lower, s, s', p);
  }

  lemma ReleaseKeeps(env: Env, lower: string -> string, s: State, s': State, p: Pid)
    requires Inv(env, lower, s) && (Release(s, s', p) || Return(s, s', p))
    ensures Inv(env, lower, s')
  {
    hide Load, Storable, Accepted, History, Answer;
    assert s.lock == Some(p);
    Update(env, lower, s, s', p);
  }

  lemma AnswersDoNotFail(op: Op, bots: Bots)
    ensures Answer(op, bots) != Failed
  {
  }

  lemma ReadKeeps(env: Env, lower: string -> string, s: State, s': State, p: Pid)
    requires Inv(env, lower, s) && Read(s, s', p)
    ensures Inv(env, lower, s')
  {
    hide Load, Storable, Accepted, Answer;
    FirstVersion(lower, s);
    AnswersDoNotFail(s.calls[p].op, s.cache.value);
    Update(env, lower, s, s', p);
  }

  lemma TakeSnapshotKeeps(env: Env, lower: string -> string, s: State, s': State, p: Pid)
    requires Inv(env, lower, s) && TakeSnapshot(s, s', p)
    ensures Inv(env, lower, s')
  {
    hide Load, Storable, Accepted, Apply;
    assert s.lock == Some(p);
    var c := s.calls[p];
    NewListStorable(lower, c.op, s.cache.value);
    if c.op.Delete? {
      DeleteAnswers(c.op, s.cache.value);
    }
    FirstVersion(lower, s);
    Update(env, lower, s, s', p);
  }

  lemma FluxKeeps(env: Env, lower: string -> string, s: State, s': State, p: Pid)
    requires Inv(env, lower, s) && Flux(s, s', p)
    ensures Inv(env, lower, s')
  {
    hide Load, Storable, Accepted, Apply, Answer;
    assert s.lock == Some(p);
    Update(env, lower, s, s', p);
  }

  lemma FinishWriteKeeps(env: Env, lower: string -> string, s: State, s': State, p: Pid)
    requires Inv(env, lower, s) && FinishWrite(s, s', p)
    ensures Inv(env, lower, s')
  {
    hide Load, Storable, Accepted, Apply, History;
    assert s.lock == Some(p);
    Update(env, lower, s, s', p);
  }

  lemma FailWriteKeeps(env: Env, lower: string -> string, s: State, s': State, p: Pid)
    requires Inv(env, lower, s) && FailWrite(s, s', p)
    ensures Inv(env, lower, s')
  {
    hide Load, Storable, Accepted, Apply, History;
    assert s.lock == Some(p);
    Update(env, lower, s, s', p);
  }

  lemma CommitKeeps(env: Env, lower: string -> string, s: State, s': State, p: Pid)
    requires Inv(env, lower, s) && Commit(s, s', p)
    ensures Inv(env, lower, s')
  {
    hide Load, Storable, Accepted, Apply;
    assert s.lock == Some(p);
    OwnersGrow(env, lower, s, s', p);
    CommitAnswers(s.calls[p].op, s.cache.value);
    FirstVersion(lower, s);
    Update(env, lower, s, s', p);
  }

  lemma DeleteAnswers(op: Op, bots: Bots)
    requires op.Delete?
    ensures Answer(op, bots) == Removed(|Apply(op, bots)| != |bots|)
  {
    WithoutChanges(bots, op.id);
  }

  lemma CommitAnswers(op: Op, bots: Bots)
    requires !IsReader(op) && (op.Delete? ==> |Apply(op, bots)| != |bots|)
    ensures Answer(op, bots) == if op.Delete? then Removed(true) else Stored
  {
    if op.Delete? {
      DeleteAnswers(op, bots);
    }
  }

  lemma NextKeeps(env: Env, lower: string -> string, s: State, s': State, p: Pid)
    requires Inv(env, lower, s) && Next(lower, s, s', p)
    ensures Inv(env, lower, s')
  {
    hide Inv, Invoke, Check, Acquire, Fill, LoadDisk, FillCache, Release, Read, TakeSnapshot, Flux, FinishWrite,
      FailWrite, Commit, Return;
    if op :| Invoke(s, s', p, op) {
      InvokeKeeps(env, lower, s, s', p, op);
    } else if Check(lower, s, s', p) {
      CheckKeeps(env, lower, s, s', p);
    } else if Acquire(s, s', p) {
      AcquireKeeps(env, lower, s, s', p);
    } else if Fill(s, s', p) {
      FillKeeps(env, lower, s, s', p);
    } else if env', faulty :| LoadDisk(env', lower, s, s', p, faulty) {
      LoadDiskKeeps(env, env', lower, s, s', p, faulty);
    } else if FillCache(s, s', p) {
      FillCacheKeeps(env, lower, s, s', p);
    } else if Release(s, s', p) || Return(s, s', p) {
      ReleaseKeeps(env, lower, s, s', p);
    } else if Read(s, s', p) {
      ReadKeeps(env, lower, s, s', p);
    } else if TakeSnapshot(s, s', p) {
      TakeSnapshotKeeps(env, lower, s, s', p);
    } else if Flux(s, s', p) {
      FluxKeeps(env, lower, s, s', p);
    } else if FinishWrite(s, s', p) {
      FinishWriteKeeps(env, lower, s, s', p);
    } else if FailWrite(s, s', p) {
      FailWriteKeeps(env, lower, s, s', p);
    } else {
      CommitKeeps(env, lower, s, s', p);
    }
  }

  // ---------------------------------------------------------------- runs

  ghost predicate SomeoneSteps(lower: string -> string, s: State, s': State) {
    exists p :: Next(lower, s, s', p)
  }

  /** Any interleaving of any calls: who steps is chosen anew each time. */
  ghost predicate Run(env: Env, lower: string -> string, run: seq<State>) {
    && run != [] && Init(env, lower, run[0])
    && forall i | 0 <= i < |run| - 1 :: SomeoneSteps(lower, run[i], run[i + 1])
  }

  lemma {:induction false} RunKeeps(env: Env, lower: string -> string, run: seq<State>, i: nat)
    requires Run(env, lower, run) && i < |run|
    ensures Inv(env, lower, run[i])
  {
    hide Inv, Init, Next;
    if i == 0 {
      InitKeeps(env, lower, run[0]);
    } else {
      RunKeeps(env, lower, run, i - 1);
      var p :| Next(lower, run[i - 1], run[i], p);
      NextKeeps(env, lower, run[i - 1], run[i], p);
    }
  }

  /** Whenever the write lock is free, a filled cache is what loading the file would give, whatever
      the secret store answers, exactly when each of its bots can be read back. */
  lemma CacheCoherent(env: Env, lower: string -> string, run: seq<State>, i: nat, env': Env)
    requires Run(env, lower, run) && i < |run|
    requires run[i].lock.None? && run[i].cache.Some?
    ensures Load(env', lower, run[i].disk) == Ok(run[i].cache.value)
      <==> forall b | b in run[i].cache.value :: ReadsBack(b)
  {
    hide Load, Run, Durable, Storable, ReadsBack, Placed, OneHolder, Owners;
    RunKeeps(env, lower, run, i);
    var s := run[i];
    var bots := s.cache.value;
    LoadIgnoresSecretStore(env, env', lower, s.disk);
    DurableIffReadsBack(lower, bots);
    if Load(env', lower, s.disk) == Ok(bots) {
      LoadedIsDurable(env', lower, s.disk);
    } else {
      RoundTripIffDurable(env', lower, bots);
    }
    assert Current(s) == Ok(bots) && Storable(lower, bots);
  }

  /** The disk has failed this call in this step. */
  ghost predicate MetFault(lower: string -> string, s: State, s': State, p: Pid) {
    (exists env :: LoadDisk(env, lower, s, s', p, true)) || FailWrite(s, s', p)
  }

  lemma NextFaults(lower: string -> string, s: State, s': State, q: Pid, p: Pid)
    requires Next(lower, s, s', q)
    ensures p in s'.faults <==> p in s.faults || MetFault(lower, s, s', p)
  {
    hide Load, Accepted, Apply, Answer, FromCache, AfterFill, BuildRootPayload;
    if env, faulty :| LoadDisk(env, lower, s, s', q, faulty) {
      assert faulty ==> LoadDisk(env, lower, s, s', q, true);
    }
  }

  ghost predicate EverMetFault(lower: string -> string, run: seq<State>, i: nat, p: Pid)
    requires i < |run|
  {
    exists j: nat | j < i :: MetFault(lower, run[j], run[j + 1], p)
  }

  lemma {:induction false} RunFaults(env: Env, lower: string -> string, run: seq<State>, i: nat, p: Pid)
    requires Run(env, lower, run) && i < |run|
    ensures p in run[i].faults <==> EverMetFault(lower, run, i, p)
  {
    hide Next, MetFault;
    if i > 0 {
      RunFaults(env, lower, run, i - 1, p);
      var q :| Next(lower, run[i - 1], run[i], q);
      NextFaults(lower, run[i - 1], run[i], q, p);
      assert MetFault(lower, run[i - 1], run[i - 1 + 1], p) ==> EverMetFault(lower, run, i, p);
    }
  }

  /** A finished call has failed exactly if it was an upsert that is refused, or the disk failed its
      load or its write, or the file did not load when the repository was made. */
  lemma FailedIff(env: Env, lower: string -> string, run: seq<State>, i: nat, p: Pid)
    requires Run(env, lower, run) && i < |run| && p in run[i].calls && run[i].calls[p].pc.Done?
    ensures run[i].calls[p].pc.reply == Failed <==>
      || (run[i].calls[p].op.Upsert? && !Accepted(lower, run[i].calls[p].op.config))
      || EverMetFault(lower, run, i, p)
      || Load(env, lower, run[0].disk).Err?
  {
    hide Next, MetFault, Load, Accepted, EverMetFault, History, DiskAgrees, CacheAgrees, OneHolder, Owners, Placed;
    RunKeeps(env, lower, run, i);
    RunFaults(env, lower, run, i, p);
    RunGrows(env, lower, run, 0, i);
    assert run[i].versions[0] == run[0].versions[0];
  }

  /** What a call that did not fail has answered about the list it speaks of. */
  ghost predicate TrueReply(op: Op, reply: Reply, bots: Bots) {
    match op
    case List => reply == Listed(bots)
    case Count => reply == Counted(|bots|)
    case Get(id) =>
      reply.Found? && (match reply.bot
                       case None => forall j | 0 <= j < |bots| :: bots[j].bot.qqId != id
                       case Some(b) => exists j | 0 <= j < |bots| :: FirstOf(bots, id, j) && bots[j] == b)
    case Upsert(_) => reply == Stored
    case Delete(id) => reply == Removed(exists j | 0 <= j < |bots| :: bots[j].bot.qqId == id)
  }

  predicate FirstOf(bots: Bots, id: nat, j: nat)
    requires j < |bots|
  {
    bots[j].bot.qqId == id && forall k | 0 <= k < j :: bots[k].bot.qqId != id
  }

  lemma {:induction false} FindIsFirst(bots: Bots, id: nat) returns (j: nat)
    ensures Find(bots, id).None? ==> forall k | 0 <= k < |bots| :: bots[k].bot.qqId != id
    ensures Find(bots, id).Some? ==> j < |bots| && FirstOf(bots, id, j) && bots[j] == Find(bots, id).value
  {
    j := 0;
    if bots != [] && bots[0].bot.qqId != id {
      var k := FindIsFirst(bots[1..], id);
      j := k + 1;
    }
  }

  lemma AnswersAreTrue(op: Op, bots: Bots)
    ensures TrueReply(op, Answer(op, bots), bots)
  {
    if op.Get? {
      var j := FindIsFirst(bots, op.id);
    }
  }

  /** What a logged write does to the list: an upsert replaces the bot of its id where it stands, or
      adds itself at the end; a delete takes out the bot of its id. */
  ghost predicate TrueWrite(op: Op, before: Bots, after: Bots) {
    match op
    case Upsert(config) =>
      if HasId(before, config.bot.qqId) then
        exists j | 0 <= j < |before| :: before[j].bot.qqId == config.bot.qqId && after == before[j := config]
      else after == before + [config]
    case Delete(id) => exists j | 0 <= j < |before| :: before[j].bot.qqId == id && after == before[..j] + before[j + 1..]
    case _ => false
  }

  ghost predicate TrueAt(s: State, k: nat) {
    && k < |s.log| && k + 1 < |s.versions| && s.versions[k].Ok? && s.versions[k + 1].Ok?
    && TrueWrite(s.log[k], s.versions[k].value, s.versions[k + 1].value)
  }

  lemma {:induction false} WithoutNone(bots: Bots, id: nat)
    requires !HasId(bots, id)
    ensures Without(bots, id) == bots
  {
    if bots != [] {
      assert bots[0] in bots && forall b | b in bots[1..] :: b in bots;
      WithoutNone(bots[1..], id);
    }
  }

  lemma {:induction false} WithoutOne(bots: Bots, id: nat, j: nat)
    requires DistinctIds(bots) && j < |bots| && bots[j].bot.qqId == id
    ensures Without(bots, id) == bots[..j] + bots[j + 1..]
  {
    DistinctTail(bots);
    if j == 0 {
      WithoutNone(bots[1..], id);
    } else {
      WithoutOne(bots[1..], id, j - 1);
      assert bots[..j] == [bots[0]] + bots[1..][..j - 1];
    }
  }

  lemma ApplyIsTrue(op: Op, bots: Bots)
    requires DistinctIds(bots) && !IsReader(op) && (op.Delete? ==> HasId(bots, op.id))
    ensures TrueWrite(op, bots, Apply(op, bots))
  {
    if op.Upsert? {
      var j := FindIsFirst(bots, op.config.bot.qqId);
      if Find(bots, op.config.bot.qqId).Some? {
        assert bots[j] in bots;
        UpsertedAt(bots, op.config, j);
      } else {
        UpsertedAt(bots, op.config, |bots|);
      }
    } else {
      var b :| b in bots && b.bot.qqId == op.id;
      var j :| 0 <= j < |bots| && bots[j] == b;
      WithoutOne(bots, op.id, j);
    }
  }

  lemma LoggedWrite(env: Env, lower: string -> string, s: State, k: nat)
    requires Inv(env, lower, s) && k < |s.log|
    ensures TrueAt(s, k)
  {
    hide Load, DiskAgrees, CacheAgrees, OneHolder, WhyFailed, TrueWrite, Apply, AllValid;
    assert Owned(s, k);
    var p :| p in s.calls && Wrote(s.calls[p]) && s.calls[p].at == k;
    assert Placed(lower, s, s.calls[p]);
    ApplyIsTrue(s.log[k], s.versions[k].value);
  }

  /** The versions are the file as first loaded and then what each logged write made of its
      predecessor; a filled cache is the newest. */
  lemma WritesDoWhatTheySay(env: Env, lower: string -> string, run: seq<State>, i: nat)
    requires Run(env, lower, run) && i < |run|
    ensures var s := run[i];
      && |s.versions| == |s.log| + 1 && s.versions[0] == Load(env, lower, run[0].disk)
      && (forall k: nat | k < |s.log| :: TrueAt(s, k))
      && (s.cache.Some? ==> s.versions[|s.log|] == Ok(s.cache.value))
  {
    hide Next, Load, DiskAgrees, OneHolder, Placed, Storable, TrueAt, Apply;
    RunKeeps(env, lower, run, i);
    RunGrows(env, lower, run, 0, i);
    var s := run[i];
    forall k: nat | k < |s.log| ensures TrueAt(s, k) {
      LoggedWrite(env, lower, s, k);
    }
  }

  /** Whenever the write lock is free, the file is the newest version: as it loads before anything was
      read, as written or as loaded after that. */
  lemma FileIsNewest(env: Env, lower: string -> string, run: seq<State>, i: nat)
    requires Run(env, lower, run) && i < |run| && run[i].lock.None?
    ensures var s := run[i];
      && s.versions != []
      && (s.cache.None? ==> Load(env, lower, s.disk) == s.versions[|s.versions| - 1])
      && (s.cache.Some? ==>
            s.versions[|s.versions| - 1] == Ok(s.cache.value)
            && (Load(env, lower, s.disk) == Ok(s.cache.value) || s.disk == Doc(BuildRootPayload(s.cache.value))))
  {
    hide Load, Run, Storable, Placed, OneHolder, Owners, WhyFailed, BuildRootPayload;
    RunKeeps(env, lower, run, i);
  }

  /** At most one call is between taking the lock and dropping it. */
  lemma MutualExclusion(env: Env, lower: string -> string, run: seq<State>, i: nat, p: Pid, q: Pid)
    requires Run(env, lower, run) && i < |run|
    requires p in run[i].calls && q in run[i].calls && Holding(run[i].calls[p].pc) && Holding(run[i].calls[q].pc)
    ensures p == q
  {
    hide Run, History, Placed, DiskAgrees, CacheAgrees, Owners;
    RunKeeps(env, lower, run, i);
  }

  lemma FinishedExplained(env: Env, lower: string -> string, run: seq<State>, i: nat, p: Pid)
    requires Run(env, lower, run) && i < |run| && p in run[i].calls && run[i].calls[p].pc.Done?
    ensures Explained(run[i], run[i].calls[p], run[i].calls[p].pc.reply)
  {
    hide Run, History, Explained, DiskAgrees, CacheAgrees, OneHolder, Owners, WhyFailed;
    RunKeeps(env, lower, run, i);
    assert Placed(lower, run[i], run[i].calls[p]);
  }

  /** A finished call has told the truth about a version not older than the newest one when it was
      made; a write has its place in the log right behind that version. */
  ghost predicate Truthful(s: State, c: Call) {
    && c.pc.Done? && c.began <= c.at < |s.versions| && s.versions[c.at].Ok?
    && TrueReply(c.op, c.pc.reply, s.versions[c.at].value)
    && (c.pc.reply == Stored || c.pc.reply == Removed(true) ==> c.at < |s.log| && s.log[c.at] == c.op)
  }

  /** Every answer is the answer of one moment between the call and the reply: the history is a
      serial execution of the successful writes, and each finished call that did not fail speaks of
      one of its versions.  Each write that was acknowledged has a place of its own in the log, and
      the log holds nothing else. */
  lemma Linearizable(env: Env, lower: string -> string, run: seq<State>, i: nat, p: Pid)
    requires Run(env, lower, run) && i < |run| && p in run[i].calls && run[i].calls[p].pc.Done?
    ensures (forall k: nat | k < |run[i].log| :: TrueAt(run[i], k)) && Owners(run[i])
    ensures run[i].calls[p].pc.reply != Failed ==> Truthful(run[i], run[i].calls[p])
  {
    hide Run, Owners, TrueReply, Answer, TrueAt, Inv;
    WritesDoWhatTheySay(env, lower, run, i);
    FinishedExplained(env, lower, run, i, p);
    var c := run[i].calls[p];
    if c.pc.reply != Failed {
      AnswersAreTrue(c.op, run[i].versions[c.at].value);
      RepliesOfWrites(c.op, run[i].versions[c.at].value);
    }
    RunKeeps(env, lower, run, i);
    OwnersOf(env, lower, run[i]);
  }

  lemma RepliesOfWrites(op: Op, bots: Bots)
    ensures Answer(op, bots) == Stored || Answer(op, bots) == Removed(true) ==> !IsReader(op)
  {
  }

  lemma OwnersOf(env: Env, lower: string -> string, s: State)
    requires Inv(env, lower, s)
    ensures Owners(s)
  {
    hide Owners, History, DiskAgrees, CacheAgrees, Placed;
  }

  /** Nothing of the history is forgotten, a call keeps its operation, a finished one its reply. */
  ghost predicate Grew(s: State, s': State) {
    && s.versions <= s'.versions && s.log <= s'.log
    && (forall q | q in s.calls :: q in s'.calls && s'.calls[q].op == s.calls[q].op && s'.calls[q].began == s.calls[q].began)
    && (forall q | q in s.calls && s.calls[q].pc.Done? :: s'.calls[q] == s.calls[q])
    && forall q | q in s'.calls && q !in s.calls :: s'.calls[q].began >= |s.versions| - 1
  }

  /** What a step of `p` leaves alone. */
  ghost predicate OwnStep(s: State, s': State, p: Pid) {
    && s.versions <= s'.versions && s.log <= s'.log && p in s'.calls && s'.calls == s.calls[p := s'.calls[p]]
    && (if p in s.calls then !s.calls[p].pc.Done? && s'.calls[p].op == s.calls[p].op && s'.calls[p].began == s.calls[p].began
        else s'.calls[p].began == |s.versions| - 1)
  }

  lemma NextIsOwnStep(lower: string -> string, s: State, s': State, p: Pid)
    requires Next(lower, s, s', p)
    ensures OwnStep(s, s', p)
  {
    hide Load, Accepted, Apply, Answer, FromCache, AfterFill, BuildRootPayload;
  }

  lemma NextGrows(lower: string -> string, s: State, s': State, p: Pid)
    requires Next(lower, s, s', p)
    ensures Grew(s, s')
  {
    hide Next;
    NextIsOwnStep(lower, s, s', p);
  }

  lemma GrewTwice(s: State, t: State, u: State)
    requires Grew(s, t) && Grew(t, u)
    ensures Grew(s, u)
  {
  }

  lemma {:induction false} RunGrows(env: Env, lower: string -> string, run: seq<State>, i: nat, j: nat)
    requires Run(env, lower, run) && i <= j < |run|
    ensures Grew(run[i], run[j])
    decreases j
  {
    hide Init, Next;
    if i < j {
      RunGrows(env, lower, run, i, j - 1);
      var p :| Next(lower, run[j - 1], run[j], p);
      NextGrows(lower, run[j - 1], run[j], p);
      GrewTwice(run[i], run[j - 1], run[j]);
    }
  }

  /** `w` made one version out of its predecessor and `r` answers from that version or a later one. */
  ghost predicate Sees(s: State, w: Call, r: Call) {
    TrueAt(s, w.at) && s.log[w.at] == w.op && w.at + 1 <= r.at && Truthful(s, r)
  }

  /** A call made after a write has returned sees that write. */
  lemma CallsSeeReturnedWrites(env: Env, lower: string -> string, run: seq<State>, i: nat, j: nat, w: Pid, r: Pid)
    requires Run(env, lower, run) && i <= j < |run|
    requires w in run[i].calls && run[i].calls[w].pc.Done? && !IsReader(run[i].calls[w].op)
    requires run[i].calls[w].pc.reply != Failed && run[i].calls[w].pc.reply != Removed(false)
    requires r !in run[i].calls && r in run[j].calls && run[j].calls[r].pc.Done? && run[j].calls[r].pc.reply != Failed
    ensures Sees(run[j], run[i].calls[w], run[j].calls[r])
  {
    hide Run, Apply, Answer, Storable, Owners, TrueReply, TrueWrite;
    FinishedExplained(env, lower, run, i, w);
    Linearizable(env, lower, run, j, r);
    RunGrows(env, lower, run, i, j);
    var at := run[i].calls[w].at;
    assert at < |run[i].log| && run[i].log[at] == run[i].calls[w].op;
    assert run[j].log[at] == run[i].log[at] && TrueAt(run[j], at);
    assert run[j].calls[r].began >= |run[i].versions| - 1;
    WritesDoWhatTheySay(env, lower, run, i);
  }
}
