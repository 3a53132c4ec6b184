/**
 The configuration store: an atomic JSON write with a backup sibling, and a transaction over
 several files with snapshots and rollback.
 */
module Store {
  import opened Common
  import opened JsonModel
  import opened DiskModel

  datatype ConfigError = OutsideAllowedRoots | IoFailed | NotFound | NotJson

  datatype JsonWrite = JsonWrite(path: Path, payload: Json)

  datatype Report = Report(written: seq<Path>, deleted: seq<Path>)

  const MAX_JSON_BAK_FILES: nat := 3

  // ---------------------------------------------------------------- siblings

  function Sibling(path: Path, marker: string, id: nat): Path {
    Path(path.dir, path.name + marker + Decimal(id))
  }

  const TMP: string := ".tmp."
  const BAK: string := ".bak."

  predicate IsSibling(path: Path, marker: string, p: Path) {
    p.dir == path.dir && StartsWith(p.name, path.name + marker)
  }

  /** A file the write of `path` may touch besides `path` itself. */
  predicate IsScratch(path: Path, p: Path) {
    IsSibling(path, TMP, p) || IsSibling(path, BAK, p)
  }

  lemma SiblingNames(path: Path, id: nat, id': nat)
    ensures var t, b := Sibling(path, TMP, id), Sibling(path, BAK, id');
      IsSibling(path, TMP, t) && IsSibling(path, BAK, b) && t != path && b != path && t != b
      && !IsSibling(path, BAK, t) && !IsSibling(path, BAK, path) && IsScratch(path, t) && IsScratch(path, b)
      && t.name == path.name + ".tmp." + Decimal(id) && b.name == path.name + ".bak." + Decimal(id')
  {
    var t, b := Sibling(path, TMP, id), Sibling(path, BAK, id');
    var n := |path.name|;
    assert |t.name| > n && |b.name| > n;
    assert t.name[n + 1] == TMP[1] == 't' && b.name[n + 1] == BAK[1] == 'b';
    assert (path.name + TMP) <= t.name && (path.name + BAK) <= b.name;
    assert (path.name + BAK)[n + 1] == 'b';
  }

  // ---------------------------------------------------------------- crash safety of one write

  /** What a crash in state `now` leaves: the path never shows a torn file, and a file that was
      there is still complete, at the path or in a backup, until the new payload is. */
  ghost predicate Recoverable(before: Files, path: Path, payload: Json, now: Files) {
    && (path in now ==> now[path] == Document(payload) || Lookup(before, path) == Some(now[path]))
    && (path in before && Lookup(now, path) != Some(Document(payload)) && Lookup(now, path) != Lookup(before, path) ==>
          exists b :: IsSibling(path, BAK, b) && Lookup(now, b) == Lookup(before, path))
  }

  ghost predicate RecoverableSince(start: nat, trace: seq<Files>, before: Files, path: Path, payload: Json) {
    start <= |trace| && forall i | start <= i < |trace| :: Recoverable(before, path, payload, trace[i])
  }

  /** These are all the backups of the path. */
  ghost predicate HoldsAll(path: Path, files: Files, baks: set<Path>) {
    forall p | p in files && IsSibling(path, BAK, p) :: p in baks
  }

  ghost predicate FewBackups(path: Path, files: Files) {
    exists baks: set<Path> :: |baks| <= 3 && HoldsAll(path, files, baks)
  }

  lemma AllBackups(path: Path, files: Files)
    ensures HoldsAll(path, files, set p | p in files && IsSibling(path, BAK, p))
  {
  }

  lemma OneLessHeld(path: Path, files: Files, baks: set<Path>, p: Path)
    ensures HoldsAll(path, files, baks) ==> HoldsAll(path, files - {p}, baks - {p})
  {
  }

  lemma KeptState(before: Files, path: Path, payload: Json, now: Files)
    requires Lookup(now, path) == Lookup(before, path)
    ensures Recoverable(before, path, payload, now)
  {
  }

  lemma NewState(before: Files, path: Path, payload: Json, now: Files)
    requires Lookup(now, path) == Some(Document(payload))
    ensures Recoverable(before, path, payload, now)
  {
  }

  lemma MovedState(before: Files, path: Path, payload: Json, now: Files, b: Path)
    requires path !in now && IsSibling(path, BAK, b) && Lookup(now, b) == Lookup(before, path)
    ensures Recoverable(before, path, payload, now)
  {
  }

  /** Nothing but backups of the path differs. */
  ghost predicate BesideBackups(path: Path, before: Files, now: Files) {
    forall p | !IsSibling(path, BAK, p) :: Lookup(now, p) == Lookup(before, p)
  }

  lemma SameBeside(path: Path, files: Files)
    ensures BesideBackups(path, files, files)
  {
  }

  lemma LostBackups(path: Path, before: Files, now: Files)
    requires BesideBackups(path, before, now)
    ensures forall p | p in before && p !in now :: IsSibling(path, BAK, p)
  {
    hide IsSibling;
    forall p | p in before && !IsSibling(path, BAK, p) ensures p in now {
      assert Lookup(now, p) == Lookup(before, p);
    }
  }

  lemma WithoutBackup(path: Path, before: Files, now: Files, b: Path)
    requires BesideBackups(path, before, now) && IsSibling(path, BAK, b)
    ensures BesideBackups(path, before, now - {b})
  {
    hide IsSibling;
  }

  /** What has left `all` is no younger than what is left. */
  ghost predicate GoneAreOlder(age: Path -> nat, all: set<Path>, left: set<Path>) {
    forall p, q | p in all && p !in left && q in left :: age(p) <= age(q)
  }

  lemma NoneGone(age: Path -> nat, all: set<Path>)
    ensures GoneAreOlder(age, all, all)
  {
  }

  lemma OneMoreGone(age: Path -> nat, all: set<Path>, left: set<Path>, p: Path)
    requires GoneAreOlder(age, all, left) && p in left && forall q | q in left :: age(p) <= age(q)
    ensures GoneAreOlder(age, all, left - {p})
  {
  }

  lemma Gone(age: Path -> nat, all: set<Path>, left: set<Path>)
    requires GoneAreOlder(age, all, left)
    ensures forall p, q | p in all && p !in left && q in left :: age(p) <= age(q)
  {
  }

  lemma {:induction false} Oldest(baks: set<Path>, time: Path -> nat) returns (oldest: Path)
    requires baks != {}
    ensures oldest in baks && forall q | q in baks :: time(oldest) <= time(q)
    decreases |baks|
  {
    oldest :| oldest in baks;
    if baks != {oldest} {
      var rest := Oldest(baks - {oldest}, time);
      if time(rest) < time(oldest) {
        oldest := rest;
      }
    }
  }

  // ---------------------------------------------------------------- snapshots and rollback, as values

  type Snapshots = map<string, Content>

  /** What a snapshot directory holds; another transaction of the same second may have left it. */
  function Stale(files: Files, dir: seq<string>): Snapshots {
    map p | p in files && p.dir == dir :: p.name := files[p]
  }

  /** What the snapshots hold: the content of the last existing target of each base name, else what
      was there before. */
  function Snapshot(stale: Snapshots, files: Files, targets: seq<Path>): Snapshots {
    if targets == [] then stale
    else
      var n := |targets| - 1;
      var earlier := Snapshot(stale, files, targets[..n]);
      if targets[n] in files then earlier[targets[n].name := files[targets[n]]] else earlier
  }

  function Paths(writes: seq<JsonWrite>): (r: seq<Path>)
    ensures |r| == |writes| && forall i | 0 <= i < |r| :: r[i] == writes[i].path
  {
    seq(|writes|, i requires 0 <= i < |writes| => writes[i].path)
  }

  function Targets(writes: seq<JsonWrite>, deletes: seq<Path>): seq<Path> {
    Paths(writes) + deletes
  }

  /** The first `k` operations have changed `p`. */
  predicate Touched(files: Files, writes: seq<JsonWrite>, deletes: seq<Path>, k: nat, p: Path)
    requires k <= |writes| + |deletes|
  {
    if k <= |writes| then p in Paths(writes)[..k]
    else p in Paths(writes) || (p in deletes[..k - |writes|] && p in files)
  }

  /** What a target holds once the transaction failed at operation `k` and was rolled back. */
  function RolledBack(stale: Snapshots, files: Files, writes: seq<JsonWrite>, deletes: seq<Path>, k: nat, p: Path): Option<Content>
    requires k <= |writes| + |deletes|
  {
    if Touched(files, writes, deletes, k, p) then Lookup(Snapshot(stale, files, Targets(writes, deletes)), p.name)
    else Lookup(files, p)
  }

  /** Every target that some operation but the last changes holds, at the start, what the last
      existing target of the same base name holds. */
  predicate RollsBack(stale: Snapshots, files: Files, writes: seq<JsonWrite>, deletes: seq<Path>) {
    var targets := Targets(writes, deletes);
    forall p | p in targets && Touched(files, writes, deletes, |targets| - 1, p) ::
      Lookup(Snapshot(stale, files, targets), p.name) == Lookup(files, p)
  }

  predicate DistinctNames(targets: seq<Path>) {
    forall i, j | 0 <= i < j < |targets| :: targets[i].name != targets[j].name
  }

  lemma TouchedMore(files: Files, writes: seq<JsonWrite>, deletes: seq<Path>, k: nat, k': nat, p: Path)
    requires k <= k' <= |writes| + |deletes| && Touched(files, writes, deletes, k, p)
    ensures Touched(files, writes, deletes, k', p) && p in Targets(writes, deletes)
  {
    if k <= |writes| {
      var i :| 0 <= i < k && Paths(writes)[i] == p;
      if k' <= |writes| {
        assert Paths(writes)[..k'][i] == p;
      }
    } else {
      if p in deletes[..k - |writes|] {
        var i :| 0 <= i < k - |writes| && deletes[i] == p;
        assert deletes[..k' - |writes|][i] == p;
      }
    }
  }

  /** Rollback restores every target at every failing operation exactly when the transaction
      satisfies `RollsBack`. */
  lemma RollbackRestoresIff(stale: Snapshots, files: Files, writes: seq<JsonWrite>, deletes: seq<Path>)
    ensures RollsBack(stale, files, writes, deletes) <==>
      forall k: nat, p | k < |writes| + |deletes| && p in Targets(writes, deletes) ::
        RolledBack(stale, files, writes, deletes, k, p) == Lookup(files, p)
  {
    var n := |writes| + |deletes|;
    if RollsBack(stale, files, writes, deletes) {
      forall k: nat, p | k < n && p in Targets(writes, deletes)
        ensures RolledBack(stale, files, writes, deletes, k, p) == Lookup(files, p)
      {
        if Touched(files, writes, deletes, k, p) {
          TouchedMore(files, writes, deletes, k, n - 1, p);
        }
      }
    } else {
      var p :| p in Targets(writes, deletes) && Touched(files, writes, deletes, n - 1, p)
        && Lookup(Snapshot(stale, files, Targets(writes, deletes)), p.name) != Lookup(files, p);
      assert RolledBack(stale, files, writes, deletes, n - 1, p) != Lookup(files, p);
    }
  }

  lemma {:induction false} SnapshotOfDistinct(stale: Snapshots, files: Files, targets: seq<Path>, p: Path)
    requires DistinctNames(targets)
    ensures p in targets ==>
      Lookup(Snapshot(stale, files, targets), p.name) == if p in files then Some(files[p]) else Lookup(stale, p.name)
    ensures (forall t | t in targets :: t.name != p.name) ==>
      Lookup(Snapshot(stale, files, targets), p.name) == Lookup(stale, p.name)
  {
    if targets != [] {
      var n := |targets| - 1;
      SnapshotOfDistinct(stale, files, targets[..n], p);
      if p == targets[n] {
        forall t | t in targets[..n] ensures t.name != p.name {
          var i :| 0 <= i < n && targets[i] == t;
        }
      } else if p in targets {
        assert p in targets[..n];
        var i :| 0 <= i < n && targets[i] == p;
      }
      assert targets[n] in targets;
    }
  }

  /** With distinct base names a rollback fails only for a new file whose name an older snapshot bears. */
  lemma DistinctNamesRollBackIff(stale: Snapshots, files: Files, writes: seq<JsonWrite>, deletes: seq<Path>)
    requires DistinctNames(Targets(writes, deletes))
    ensures RollsBack(stale, files, writes, deletes) <==>
      forall p | p in Targets(writes, deletes) && p !in files
                 && Touched(files, writes, deletes, |Targets(writes, deletes)| - 1, p) :: p.name !in stale
  {
    var targets := Targets(writes, deletes);
    forall p | p in targets
      ensures Lookup(Snapshot(stale, files, targets), p.name) == if p in files then Some(files[p]) else Lookup(stale, p.name)
    {
      SnapshotOfDistinct(stale, files, targets, p);
    }
  }

  /** A transaction of one write, as the bot repository runs it, always can be rolled back. */
  lemma OneFileRollsBack(stale: Snapshots, files: Files, write: JsonWrite)
    ensures RollsBack(stale, files, [write], [])
  {
    assert |Targets([write], [])| == 1 && Paths([write])[..0] == [];
  }

  /** Two files of the same name in different directories: when the second write fails, the first
      file comes back with the second one's content. */
  lemma SharedNameLosesContent(stale: Snapshots, a: Json, b: Json, x: Json, y: Json)
    requires a != b
    ensures
      var p, q := Path(["one"], "x.json"), Path(["two"], "x.json");
      var files := map[p := Document(a), q := Document(b)];
      var writes := [JsonWrite(p, x), JsonWrite(q, y)];
      !RollsBack(stale, files, writes, []) && RolledBack(stale, files, writes, [], 1, p) == Some(Document(b))
  {
    var p, q := Path(["one"], "x.json"), Path(["two"], "x.json");
    assert p.dir[0] != q.dir[0];
    var files := map[p := Document(a), q := Document(b)];
    var writes := [JsonWrite(p, x), JsonWrite(q, y)];
    var targets := Targets(writes, []);
    assert targets == [p, q];
    assert targets[..1] == [p];
    assert Snapshot(stale, files, targets) == Snapshot(stale, files, [p])["x.json" := Document(b)];
    assert Paths(writes)[..1] == [p] && p in Paths(writes)[..1];
    assert Touched(files, writes, [], 1, p) && p in targets;
  }

  // ---------------------------------------------------------------- the store

  /** A restored state, as far as the targets go. */
  ghost predicate SameTargets(before: Files, after: Files, targets: seq<Path>) {
    forall p | p in targets :: Lookup(after, p) == Lookup(before, p)
  }

  /** No target is where another one's write leaves its siblings, nor among the snapshots. */
  ghost predicate Separate(targets: seq<Path>, backupRoot: seq<string>) {
    (forall p, q | p in targets && q in targets :: !IsScratch(p, q)) && forall p | p in targets :: p.dir != backupRoot
  }

  /** The snapshot directory holds these snapshots and nothing else. */
  ghost predicate Holds(files: Files, backupRoot: seq<string>, snapshot: Snapshots) {
    forall name :: Lookup(files, Path(backupRoot, name)) == Lookup(snapshot, name)
  }

  lemma StaleIsHeld(files: Files, dir: seq<string>)
    ensures Holds(files, dir, Stale(files, dir))
  {
    forall name ensures Lookup(files, Path(dir, name)) == Lookup(Stale(files, dir), name) {
      if Path(dir, name) in files {
        assert Path(dir, name).name in Stale(files, dir);
      }
    }
  }

  /** What a path holds after these writes. */
  function AfterWrites(files: Files, writes: seq<JsonWrite>, p: Path): Option<Content> {
    if writes == [] then Lookup(files, p)
    else
      var last := writes[|writes| - 1];
      if last.path == p then Some(Document(last.payload)) else AfterWrites(files, writes[..|writes| - 1], p)
  }

  /** What a path holds after a whole transaction. */
  function Applied(files: Files, writes: seq<JsonWrite>, deletes: seq<Path>, p: Path): Option<Content> {
    if p in deletes then None else AfterWrites(files, writes, p)
  }

  lemma {:induction false} AfterWritesElsewhere(files: Files, writes: seq<JsonWrite>, p: Path)
    ensures p !in Paths(writes) ==> AfterWrites(files, writes, p) == Lookup(files, p)
    ensures p in Paths(writes) ==> AfterWrites(files, writes, p).Some?
  {
    if writes != [] {
      var n := |writes| - 1;
      AfterWritesElsewhere(files, writes[..n], p);
      assert Paths(writes) == Paths(writes[..n]) + [writes[n].path];
    }
  }

  /** What a path holds after restoring: a written file comes back or goes, a deleted one comes back. */
  function AfterRestore(files: Files, snapshot: Snapshots, written: seq<Path>, deleted: seq<Path>, p: Path)
    : Option<Content>
  {
    if p in written then Lookup(snapshot, p.name)
    else if p in deleted && p.name in snapshot then Some(snapshot[p.name])
    else Lookup(files, p)
  }

  lemma {:induction false} SnapshotHas(stale: Snapshots, files: Files, targets: seq<Path>, p: Path)
    requires p in targets && p in files
    ensures p.name in Snapshot(stale, files, targets)
  {
    var n := |targets| - 1;
    if p != targets[n] {
      SnapshotHas(stale, files, targets[..n], p);
    }
  }

  /** Restoring after the first `k` operations were done gives `RolledBack`. */
  lemma RestoreIsRollback(stale: Snapshots, files: Files, writes: seq<JsonWrite>, deletes: seq<Path>, m: nat, k: nat, deleted: seq<Path>,
                          now: Files, p: Path)
    requires m <= |writes| && k <= |deletes| && (m == |writes| || k == 0) && p in Targets(writes, deletes)
    requires Lookup(now, p) == if p in deletes[..k] then None else AfterWrites(files, writes[..m], p)
    requires p in deleted <==> p in deletes[..k] && AfterWrites(files, writes[..m], p).Some?
    ensures AfterRestore(now, Snapshot(stale, files, Targets(writes, deletes)), Paths(writes)[..m], deleted, p)
      == RolledBack(stale, files, writes, deletes, m + k, p)
  {
    AfterWritesElsewhere(files, writes[..m], p);
    assert Paths(writes[..m]) == Paths(writes)[..m];
    assert m == |writes| ==> Paths(writes)[..m] == Paths(writes);
    if p in files {
      SnapshotHas(stale, files, Targets(writes, deletes), p);
    }
  }

  /** Outside the targets, their siblings and the snapshots, nothing changes. */
  ghost predicate ElsewhereSame(before: Files, after: Files, targets: seq<Path>) {
    forall p | p !in targets && forall t | t in targets :: !IsScratch(t, p) :: Lookup(after, p) == Lookup(before, p)
  }

  /** The snapshots are taken and nothing else has happened. */
  ghost predicate Ready(stale: Snapshots, before: Files, writes: seq<JsonWrite>, deletes: seq<Path>, backupRoot: seq<string>, now: Files) {
    var targets := Targets(writes, deletes);
    Separate(targets, backupRoot) && Holds(now, backupRoot, Snapshot(stale, before, targets)) && SameTargets(before, now, targets)
  }

  /** Some operation failed, and the targets are as `RolledBack` says. */
  ghost predicate FailedAt(stale: Snapshots, before: Files, writes: seq<JsonWrite>, deletes: seq<Path>, k: nat, now: Files) {
    k < |writes| + |deletes|
    && forall p | p in Targets(writes, deletes) :: Lookup(now, p) == RolledBack(stale, before, writes, deletes, k, p)
  }

  /** What the targets hold after a transaction that succeeded, or failed at operation `k`. */
  ghost predicate Outcome(stale: Snapshots, before: Files, writes: seq<JsonWrite>, deletes: seq<Path>, ok: bool, k: nat,
                          now: Files) {
    if ok then forall p | p in Targets(writes, deletes) :: Lookup(now, p) == Applied(before, writes, deletes, p)
    else FailedAt(stale, before, writes, deletes, k, now)
  }

  lemma NoSnapshotsYet(stale: Snapshots, before: Files)
    ensures Snapshot(stale, before, []) == stale
  {
  }

  /** One turn of the snapshot loop. */
  lemma OneMoreSnapshot(stale: Snapshots, before: Files, targets: seq<Path>, i: nat, backupRoot: seq<string>, now: Files,
                        now': Files)
    requires i < |targets| && Separate(targets, backupRoot)
    requires Holds(now, backupRoot, Snapshot(stale, before, targets[..i]))
    requires Lookup(now, targets[i]) == Lookup(before, targets[i])
    requires now' == if targets[i] in now then now[Path(backupRoot, targets[i].name) := now[targets[i]]] else now
    ensures Holds(now', backupRoot, Snapshot(stale, before, targets[..i + 1]))
  {
    assert targets[..i + 1][..i] == targets[..i];
    forall name
      ensures Lookup(now', Path(backupRoot, name)) == Lookup(Snapshot(stale, before, targets[..i + 1]), name)
    {
      assert Lookup(now, Path(backupRoot, name)) == Lookup(Snapshot(stale, before, targets[..i]), name);
    }
  }

  function BackupRoot(backupDir: seq<string>, seconds: nat): seq<string> {
    backupDir + ["migration-" + Decimal(seconds)]
  }

  lemma NothingDone(stale: Snapshots, before: Files, writes: seq<JsonWrite>, deletes: seq<Path>, now: Files)
    requires (writes != [] || deletes != []) && SameTargets(before, now, Targets(writes, deletes))
    ensures FailedAt(stale, before, writes, deletes, 0, now)
  {
    assert Paths(writes)[..0] == [];
  }

  lemma StillHolds(before: Files, after: Files, targets: seq<Path>, backupRoot: seq<string>, snapshot: Snapshots)
    requires ElsewhereSame(before, after, targets)
    ensures Separate(targets, backupRoot) && Holds(before, backupRoot, snapshot) ==> Holds(after, backupRoot, snapshot)
  {
    if Separate(targets, backupRoot) && Holds(before, backupRoot, snapshot) {
      forall name ensures Lookup(after, Path(backupRoot, name)) == Lookup(snapshot, name) {
        assert Lookup(before, Path(backupRoot, name)) == Lookup(snapshot, name);
      }
    }
  }

  lemma {:induction false} AfterWritesSame(files: Files, files': Files, writes: seq<JsonWrite>, p: Path)
    requires Lookup(files, p) == Lookup(files', p)
    ensures AfterWrites(files, writes, p) == AfterWrites(files', writes, p)
  {
    if writes != [] {
      AfterWritesSame(files, files', writes[..|writes| - 1], p);
    }
  }

  /** The state after a restore, from the states after the writes and after the deletes. */
  lemma RestoredAt(stale: Snapshots, before: Files, writes: seq<JsonWrite>, deletes: seq<Path>, m: nat, n: nat, deleted: seq<Path>,
                   snapshot: Snapshots, start: Files, filled: Files, left: Files, now: Files)
    requires m <= |writes| && n <= |deletes| && (m == |writes| || n == 0) && m + n < |writes| + |deletes|
    requires SameTargets(before, start, Targets(writes, deletes))
    requires forall p | p in Targets(writes, deletes) :: Lookup(filled, p) == AfterWrites(start, writes[..m], p)
    requires left == filled - set p | p in deletes[..n]
    requires forall p :: p in deleted <==> p in deletes[..n] && p in filled
    requires snapshot == Snapshot(stale, before, Targets(writes, deletes))
    requires forall p :: Lookup(now, p) == AfterRestore(left, snapshot, Paths(writes)[..m], deleted, p)
    ensures FailedAt(stale, before, writes, deletes, m + n, now)
  {
    hide Snapshot, AfterRestore, RolledBack;
    forall p | p in Targets(writes, deletes)
      ensures Lookup(now, p) == RolledBack(stale, before, writes, deletes, m + n, p)
    {
      AfterWritesSame(before, start, writes[..m], p);
      assert Lookup(left, p) == if p in deletes[..n] then None else Lookup(filled, p);
      RestoreIsRollback(stale, before, writes, deletes, m, n, deleted, left, p);
    }
  }

  lemma AllApplied(stale: Snapshots, before: Files, writes: seq<JsonWrite>, deletes: seq<Path>, start: Files, filled: Files, now: Files)
    requires SameTargets(before, start, Targets(writes, deletes))
    requires forall p | p in Targets(writes, deletes) :: Lookup(filled, p) == AfterWrites(start, writes, p)
    requires now == filled - set p | p in deletes
    ensures Outcome(stale, before, writes, deletes, true, 0, now)
  {
    forall p | p in Targets(writes, deletes) ensures Lookup(now, p) == Applied(before, writes, deletes, p) {
      AfterWritesSame(before, start, writes, p);
    }
  }

  /** What a successful transaction reports as deleted: the deletes that found a file. */
  ghost predicate ReportsDeleted(before: Files, writes: seq<JsonWrite>, deletes: seq<Path>, report: Report) {
    forall p :: p in report.deleted <==> p in deletes && (p in before || p in Paths(writes))
  }

  lemma DeletedAre(before: Files, writes: seq<JsonWrite>, deletes: seq<Path>, start: Files, filled: Files, report: Report)
    requires SameTargets(before, start, Targets(writes, deletes))
    requires forall p | p in Targets(writes, deletes) :: Lookup(filled, p) == AfterWrites(start, writes, p)
    requires forall p :: p in report.deleted <==> p in deletes && p in filled
    ensures ReportsDeleted(before, writes, deletes, report)
  {
    forall p | p in deletes ensures p in filled <==> p in before || p in Paths(writes) {
      assert p in Targets(writes, deletes);
      AfterWritesSame(before, start, writes, p);
      AfterWritesElsewhere(before, writes, p);
    }
  }

  class LocalConfigStore {
    const disk: Disk
    const root: seq<string>

    constructor (disk: Disk, root: seq<string>)
      ensures this.disk == disk && this.root == root
    {
      this.disk, this.root := disk, root;
    }

    /** `ensure_within_root`, without symbolic links. */
    predicate WithinRoot(path: Path) {
      ".." !in path.dir && path.name != ".." && root <= path.dir
    }

    /** The paths of the root are those made of the root, further directories and a name, none of them "..". */
    lemma WithinRootIff(path: Path)
      ensures WithinRoot(path) <==>
        path.name != ".." && (forall c | c in path.dir :: c != "..") && exists below :: path.dir == root + below
    {
      if WithinRoot(path) {
        assert path.dir == root + path.dir[|root|..];
      }
    }

    /** `read_json`. */
    method ReadJson(path: Path) returns (r: Result<Json, ConfigError>)
      modifies disk`clock, disk`undoFailed
      ensures r == Err(OutsideAllowedRoots) <==> !WithinRoot(path)
      ensures r.Ok? ==> Lookup(disk.files, path) == Some(Document(r.value))
      ensures r == Err(NotFound) ==> path !in disk.files
      ensures r == Err(NotJson) ==> Lookup(disk.files, path) == Some(Garbage)
      ensures r == Err(IoFailed) ==> !disk.NoFault(old(disk.clock), disk.clock)
      ensures disk.undoFailed == old(disk.undoFailed)
    {
      if !WithinRoot(path) {
        return Err(OutsideAllowedRoots);
      }
      var ok := disk.Attempt(false);
      if !ok {
        return Err(IoFailed);
      }
      if path !in disk.files {
        return Err(NotFound);
      }
      match disk.files[path] {
        case Document(v) => return Ok(v);
        case Garbage => return Err(NotJson);
      }
    }

    /** `prune_json_bak_files`: all backups but the newest `keep` go, if the disk lets them. */
    method PruneBackups(path: Path, keep: nat) returns (ghost kept: set<Path>)
      requires disk.Valid()
      modifies disk
      ensures disk.Valid() && disk.undoFailed == old(disk.undoFailed)
      ensures BesideBackups(path, old(disk.files), disk.files) && disk.files.Keys <= old(disk.files.Keys)
      ensures |kept| <= keep && kept <= disk.files.Keys && forall p | p in kept :: IsSibling(path, BAK, p)
      ensures disk.files.Keys != old(disk.files.Keys) ==> |kept| == keep
      ensures old(disk.clock) <= disk.clock
      ensures disk.NoFault(old(disk.clock), disk.clock) ==> HoldsAll(path, disk.files, kept)
      ensures forall p, q | p in old(disk.files) && p !in disk.files && q in kept ::
                disk.modified(old(disk.clock), p) <= disk.modified(old(disk.clock), q)
      ensures old(disk.trace) <= disk.trace
      ensures forall i | |old(disk.trace)| <= i < |disk.trace| :: BesideBackups(path, old(disk.files), disk.trace[i])
    {
      hide IsSibling, BesideBackups, GoneAreOlder, HoldsAll;
      AllBackups(path, disk.files);
      SameBeside(path, disk.files);
      var baks := set p | p in disk.files && IsSibling(path, BAK, p);
      var now := disk.clock;
      ghost var age, all := p => disk.modified(now, p), baks;
      NoneGone(age, all);
      while |baks| > keep
        invariant disk.Valid() && disk.undoFailed == old(disk.undoFailed)
        invariant baks <= disk.files.Keys <= old(disk.files.Keys)
        invariant forall p | p in baks :: IsSibling(path, BAK, p)
        invariant BesideBackups(path, old(disk.files), disk.files)
        invariant |baks| < keep ==> disk.files == old(disk.files)
        invariant GoneAreOlder(age, all, baks) && now <= disk.clock
        invariant disk.NoFault(now, disk.clock) ==> HoldsAll(path, disk.files, baks)
        invariant old(disk.trace) <= disk.trace
        invariant forall i | |old(disk.trace)| <= i < |disk.trace| :: BesideBackups(path, old(disk.files), disk.trace[i])
        decreases |baks|
      {
        ghost var oldest := Oldest(baks, age);
        var p :| p in baks && forall q | q in baks :: disk.modified(now, p) <= disk.modified(now, q);
        OneMoreGone(age, all, baks, p);
        OneLessHeld(path, disk.files, baks, p);
        WithoutBackup(path, old(disk.files), disk.files, p);
        var _ := disk.Remove(p, false);
        baks := baks - {p};
      }
      LostBackups(path, old(disk.files), disk.files);
      Gone(age, all, baks);
      kept := if |baks| <= keep then baks else {};
    }

    /** The end of `write_json_atomic`: the staged file takes the path, or the old one comes back. */
    method Replace(path: Path, temp: Path, backup: Path, moved: bool, payload: Json, ghost before: Files)
      returns (ok: bool)
      requires disk.Valid() && IsSibling(path, TMP, temp) && IsSibling(path, BAK, backup) && temp != path && backup != path
      requires temp != backup && !IsSibling(path, BAK, temp) && !IsSibling(path, BAK, path)
      requires Lookup(disk.files, temp) == Some(Document(payload))
      requires if moved then path !in disk.files && path in before && Lookup(disk.files, backup) == Lookup(before, path)
               else Lookup(disk.files, path) == Lookup(before, path)
      modifies disk
      ensures disk.Valid()
      ensures ok ==> Lookup(disk.files, path) == Some(Document(payload)) && disk.undoFailed == old(disk.undoFailed)
      ensures old(disk.clock) <= disk.clock
      ensures disk.NoFault(old(disk.clock), disk.clock) ==> ok && FewBackups(path, disk.files)
      ensures disk.undoFailed ==> old(disk.undoFailed) || disk.TwoFaults(old(disk.clock), disk.clock)
      ensures !disk.undoFailed ==> !old(disk.undoFailed)
      ensures !ok && !disk.undoFailed ==> Lookup(disk.files, path) == Lookup(before, path)
      ensures forall p | p != path && !IsScratch(path, p) :: Lookup(disk.files, p) == old(Lookup(disk.files, p))
      ensures old(disk.trace) <= disk.trace
      ensures RecoverableSince(|old(disk.trace)|, disk.trace, before, path, payload)
    {
      hide Recoverable, IsSibling;
      ghost var start := |disk.trace|;
      ok := disk.Rename(temp, path, false);
      if ok {
        NewState(before, path, payload, disk.files);
        ghost var kept := PruneBackups(path, MAX_JSON_BAK_FILES);
        assert disk.NoFault(old(disk.clock), disk.clock) ==> HoldsAll(path, disk.files, kept);
        forall i | start <= i < |disk.trace| ensures Recoverable(before, path, payload, disk.trace[i]) {
          NewState(before, path, payload, disk.trace[i]);
        }
        return;
      }
      var _ := disk.Remove(temp, false);
      if moved {
        MovedState(before, path, payload, disk.files, backup);
      } else {
        KeptState(before, path, payload, disk.files);
      }
      if moved && backup in disk.files && path !in disk.files {
        var back := disk.Rename(backup, path, true);
        if back {
          KeptState(before, path, payload, disk.files);
        }
      }
    }

    /** The start of `write_json_atomic`: the payload is written beside the path, and the old file,
        if any, moves to its backup name. */
    method Stage(path: Path, payload: Json) returns (ok: bool, temp: Path, backup: Path, moved: bool)
      requires disk.Valid()
      modifies disk
      ensures disk.Valid() && disk.undoFailed == old(disk.undoFailed)
      ensures IsSibling(path, TMP, temp) && IsSibling(path, BAK, backup) && temp != path && backup != path
      ensures temp != backup && !IsSibling(path, BAK, temp) && !IsSibling(path, BAK, path)
      ensures ok ==> Lookup(disk.files, temp) == Some(Document(payload))
      ensures old(disk.clock) <= disk.clock && (disk.NoFault(old(disk.clock), disk.clock) ==> ok)
      ensures if ok && moved then path !in disk.files && path in old(disk.files)
                                  && Lookup(disk.files, backup) == old(Lookup(disk.files, path))
              else Lookup(disk.files, path) == old(Lookup(disk.files, path))
      ensures forall p | p != path && !IsScratch(path, p) :: Lookup(disk.files, p) == old(Lookup(disk.files, p))
      ensures old(disk.trace) <= disk.trace
      ensures RecoverableSince(|old(disk.trace)|, disk.trace, old(disk.files), path, payload)
    {
      hide Recoverable, IsSibling, IsScratch, Sibling;
      ghost var before, start := disk.files, |disk.trace|;
      temp := Sibling(path, TMP, disk.nanos(disk.clock));
      backup := Sibling(path, BAK, disk.nanos(disk.clock + 1));
      SiblingNames(path, disk.nanos(disk.clock), disk.nanos(disk.clock + 1));
      moved := false;
      ok := disk.Write(temp, payload);
      forall i | start <= i < |disk.trace| ensures Recoverable(before, path, payload, disk.trace[i]) {
        KeptState(before, path, payload, disk.trace[i]);
      }
      if ok && path in disk.files && backup !in disk.files {
        ok := disk.Rename(path, backup, false);
        if ok {
          moved := true;
          MovedState(before, path, payload, disk.files, backup);
        }
      }
    }

    /** `write_json_atomic`. */
    method WriteJsonAtomic(path: Path, payload: Json) returns (ok: bool)
      requires disk.Valid()
      modifies disk
      ensures disk.Valid()
      ensures ok ==> WithinRoot(path) && Lookup(disk.files, path) == Some(Document(payload))
      ensures old(disk.clock) <= disk.clock
      ensures WithinRoot(path) && disk.NoFault(old(disk.clock), disk.clock) ==> ok && FewBackups(path, disk.files)
      ensures disk.undoFailed ==> old(disk.undoFailed) || disk.TwoFaults(old(disk.clock), disk.clock)
      ensures ok ==> disk.undoFailed == old(disk.undoFailed)
      ensures !disk.undoFailed ==> !old(disk.undoFailed)
      ensures !ok && !disk.undoFailed ==> Lookup(disk.files, path) == old(Lookup(disk.files, path))
      ensures forall p | p != path && !IsScratch(path, p) :: Lookup(disk.files, p) == old(Lookup(disk.files, p))
      ensures old(disk.trace) <= disk.trace
      ensures RecoverableSince(|old(disk.trace)|, disk.trace, old(disk.files), path, payload)
    {
      hide Recoverable, IsSibling, IsScratch;
      ghost var before, start := disk.files, |disk.trace|;
      if !WithinRoot(path) {
        return false;
      }
      ok := disk.CreateDirs(false);
      if !ok {
        return;
      }
      var temp, backup, moved;
      ok, temp, backup, moved := Stage(path, payload);
      if !ok {
        return;
      }
      ok := Replace(path, temp, backup, moved, payload, before);
    }

    // -------------------------------------------------------------- transactions

    /** The snapshot loop of `apply_transaction`. */
    method TakeSnapshots(backupRoot: seq<string>, targets: seq<Path>) returns (error: Option<ConfigError>)
      requires disk.Valid()
      modifies disk
      ensures disk.Valid() && disk.undoFailed == old(disk.undoFailed)
      ensures forall p: Path | p.dir != backupRoot :: Lookup(disk.files, p) == old(Lookup(disk.files, p))
      ensures error.None? ==> forall p | p in targets :: WithinRoot(p)
      ensures old(disk.clock) <= disk.clock
      ensures (forall p | p in targets :: WithinRoot(p)) && disk.NoFault(old(disk.clock), disk.clock) ==> error.None?
      ensures error.None? && Separate(targets, backupRoot) ==>
                Holds(disk.files, backupRoot, Snapshot(old(Stale(disk.files, backupRoot)), old(disk.files), targets))
    {
      hide Holds, Snapshot, Stale, IsScratch, WithinRoot;
      ghost var before := disk.files;
      ghost var stale := Stale(before, backupRoot);
      StaleIsHeld(before, backupRoot);
      NoSnapshotsYet(stale, before);
      for i := 0 to |targets|
        invariant disk.Valid() && disk.undoFailed == old(disk.undoFailed)
        invariant forall p: Path | p.dir != backupRoot :: Lookup(disk.files, p) == Lookup(before, p)
        invariant old(disk.clock) <= disk.clock && forall p | p in targets[..i] :: WithinRoot(p)
        invariant Separate(targets, backupRoot) ==> Holds(disk.files, backupRoot, Snapshot(stale, before, targets[..i]))
      {
        var path := targets[i];
        if !WithinRoot(path) {
          return Some(OutsideAllowedRoots);
        }
        ghost var now := disk.files;
        if path in disk.files {
          var ok := disk.Copy(path, Path(backupRoot, path.name), false);
          if !ok {
            return Some(IoFailed);
          }
        }
        if Separate(targets, backupRoot) {
          OneMoreSnapshot(stale, before, targets, i, backupRoot, now, disk.files);
        }
      }
      assert targets[..|targets|] == targets;
      return None;
    }

    /** The write loop: it stops at the first write that fails. */
    method WriteAll(writes: seq<JsonWrite>, ghost targets: seq<Path>, ghost backupRoot: seq<string>)
      returns (ok: bool, written: seq<Path>)
      requires disk.Valid() && forall p | p in Paths(writes) :: p in targets
      modifies disk
      ensures disk.Valid() && (!disk.undoFailed ==> !old(disk.undoFailed))
      ensures |written| <= |writes| && written == Paths(writes)[..|written|]
      ensures ok ==> |written| == |writes| && disk.undoFailed == old(disk.undoFailed)
      ensures !ok ==> |written| < |writes|
      ensures old(disk.clock) <= disk.clock
      ensures (forall p | p in Paths(writes) :: WithinRoot(p)) && disk.NoFault(old(disk.clock), disk.clock) ==> ok
      ensures disk.undoFailed ==> old(disk.undoFailed) || disk.TwoFaults(old(disk.clock), disk.clock)
      ensures ElsewhereSame(old(disk.files), disk.files, targets)
      ensures Separate(targets, backupRoot) && !disk.undoFailed ==> forall p | p in targets ::
                Lookup(disk.files, p) == AfterWrites(old(disk.files), writes[..|written|], p)
    {
      hide IsScratch, WithinRoot, RecoverableSince;
      ghost var before := disk.files;
      written := [];
      for i := 0 to |writes|
        invariant disk.Valid() && disk.undoFailed == old(disk.undoFailed) && old(disk.clock) <= disk.clock
        invariant written == Paths(writes)[..i]
        invariant ElsewhereSame(before, disk.files, targets)
        invariant Separate(targets, backupRoot) ==> forall p | p in targets ::
                    Lookup(disk.files, p) == AfterWrites(before, writes[..i], p)
      {
        assert writes[i].path == Paths(writes)[i];
        assert writes[..i + 1][..i] == writes[..i];
        ok := WriteJsonAtomic(writes[i].path, writes[i].payload);
        if !ok {
          return;
        }
        written := written + [writes[i].path];
      }
      ok := true;
      assert writes[..|writes|] == writes;
    }

    /** The delete loop: missing files are skipped. */
    method DeleteAll(deletes: seq<Path>) returns (ok: bool, ghost n: nat, deleted: seq<Path>)
      requires disk.Valid()
      modifies disk
      ensures disk.Valid() && disk.undoFailed == old(disk.undoFailed)
      ensures if ok then n == |deletes| else n < |deletes|
      ensures old(disk.clock) <= disk.clock && (disk.NoFault(old(disk.clock), disk.clock) ==> ok)
      ensures disk.files == old(disk.files) - set p | p in deletes[..n]
      ensures forall p :: p in deleted <==> p in deletes[..n] && p in old(disk.files)
    {
      ghost var before := disk.files;
      deleted, n := [], 0;
      for i := 0 to |deletes|
        invariant disk.Valid() && disk.undoFailed == old(disk.undoFailed) && n == i && old(disk.clock) <= disk.clock
        invariant disk.files == before - set p | p in deletes[..i]
        invariant forall p :: p in deleted <==> p in deletes[..i] && p in before
      {
        assert deletes[..i + 1] == deletes[..i] + [deletes[i]];
        if deletes[i] in disk.files {
          ok := disk.Remove(deletes[i], false);
          if !ok {
            return;
          }
          deleted := deleted + [deletes[i]];
        }
        n := n + 1;
      }
      ok := true;
    }

    /** Bringing one written file back: copied from its snapshot, or removed if it has none. */
    method RestoreWritten(backupRoot: seq<string>, path: Path, ghost snapshot: Snapshots)
      requires disk.Valid()
      modifies disk
      ensures disk.Valid() && (!disk.undoFailed ==> !old(disk.undoFailed)) && old(disk.clock) <= disk.clock
      ensures disk.undoFailed ==> old(disk.undoFailed) || !disk.NoFault(old(disk.clock), disk.clock)
      ensures forall p | p != path :: Lookup(disk.files, p) == old(Lookup(disk.files, p))
      ensures Holds(old(disk.files), backupRoot, snapshot) && path.dir != backupRoot && !disk.undoFailed ==>
                Lookup(disk.files, path) == Lookup(snapshot, path.name)
    {
      var backup := Path(backupRoot, path.name);
      if backup in disk.files {
        var _ := disk.CreateDirs(true);
        var _ := disk.Copy(backup, path, true);
      } else {
        var _ := disk.Remove(path, true);
      }
    }

    /** `restore_transaction_state`. */
    method Restore(backupRoot: seq<string>, written: seq<Path>, deleted: seq<Path>, ghost snapshot: Snapshots)
      requires disk.Valid()
      modifies disk
      ensures disk.Valid() && (!disk.undoFailed ==> !old(disk.undoFailed)) && old(disk.clock) <= disk.clock
      ensures disk.undoFailed ==> old(disk.undoFailed) || !disk.NoFault(old(disk.clock), disk.clock)
      ensures forall p | p !in written && p !in deleted :: Lookup(disk.files, p) == old(Lookup(disk.files, p))
      ensures Holds(old(disk.files), backupRoot, snapshot) && !disk.undoFailed
                && (forall p | p in written || p in deleted :: p.dir != backupRoot) ==>
                forall p :: Lookup(disk.files, p) == AfterRestore(old(disk.files), snapshot, written, deleted, p)
    {
      ghost var before := disk.files;
      ghost var apart := Holds(before, backupRoot, snapshot) && forall p | p in written || p in deleted :: p.dir != backupRoot;
      for i := |deleted| downto 0
        invariant disk.Valid() && (!disk.undoFailed ==> !old(disk.undoFailed)) && old(disk.clock) <= disk.clock
        invariant disk.undoFailed ==> old(disk.undoFailed) || !disk.NoFault(old(disk.clock), disk.clock)
        invariant forall p | p !in deleted :: Lookup(disk.files, p) == Lookup(before, p)
        invariant apart && !disk.undoFailed ==>
                    forall p :: Lookup(disk.files, p) == AfterRestore(before, snapshot, [], deleted[i..], p)
      {
        var path := deleted[i];
        var backup := Path(backupRoot, path.name);
        assert apart ==> Lookup(disk.files, backup) == Lookup(snapshot, path.name);
        assert deleted[i..] == [path] + deleted[i + 1..];
        if backup in disk.files {
          var _ := disk.CreateDirs(true);
          var _ := disk.Copy(backup, path, true);
        }
      }
      for i := |written| downto 0
        invariant disk.Valid() && (!disk.undoFailed ==> !old(disk.undoFailed)) && old(disk.clock) <= disk.clock
        invariant disk.undoFailed ==> old(disk.undoFailed) || !disk.NoFault(old(disk.clock), disk.clock)
        invariant forall p | p !in written && p !in deleted :: Lookup(disk.files, p) == Lookup(before, p)
        invariant apart && !disk.undoFailed ==>
                    forall p :: Lookup(disk.files, p) == AfterRestore(before, snapshot, written[i..], deleted, p)
      {
        assert apart ==> Holds(disk.files, backupRoot, snapshot);
        assert written[i..] == [written[i]] + written[i + 1..];
        RestoreWritten(backupRoot, written[i], snapshot);
      }
    }

    /** The operations themselves, once the snapshots are taken. */
    method Perform(writes: seq<JsonWrite>, deletes: seq<Path>, backupRoot: seq<string>, ghost before: Files,
                   ghost stale: Snapshots)
      returns (r: Result<Report, ConfigError>, ghost k: nat)
      requires disk.Valid()
      modifies disk
      ensures disk.Valid() && (!disk.undoFailed ==> !old(disk.undoFailed)) && old(disk.clock) <= disk.clock
      ensures r.Ok? ==> r.value.written == Paths(writes)
      ensures (forall p | p in Targets(writes, deletes) :: WithinRoot(p)) && disk.NoFault(old(disk.clock), disk.clock) ==> r.Ok?
      ensures (forall p | p in Targets(writes, deletes) :: WithinRoot(p)) && disk.undoFailed ==>
                old(disk.undoFailed) || disk.TwoFaults(old(disk.clock), disk.clock)
      ensures ElsewhereSame(old(disk.files), disk.files, Targets(writes, deletes))
      ensures Ready(stale, before, writes, deletes, backupRoot, old(disk.files)) && !disk.undoFailed ==>
                Outcome(stale, before, writes, deletes, r.Ok?, k, disk.files)
                && (r.Ok? ==> ReportsDeleted(before, writes, deletes, r.value))
    {
      hide IsScratch, Snapshot, AfterWrites, AfterRestore, RolledBack, WithinRoot;
      ghost var targets := Targets(writes, deletes);
      ghost var snapshot := Snapshot(stale, before, targets);
      ghost var start := disk.files;
      ghost var ready := Ready(stale, before, writes, deletes, backupRoot, start);
      var ok, written := WriteAll(writes, targets, backupRoot);
      ghost var m := |written|;
      ghost var filled := disk.files;
      StillHolds(start, filled, targets, backupRoot, snapshot);
      if !ok {
        Restore(backupRoot, written, [], snapshot);
        if ready && !disk.undoFailed {
          RestoredAt(stale, before, writes, deletes, m, 0, [], snapshot, start, filled, filled, disk.files);
        }
        return Err(IoFailed), m;
      }
      ghost var n;
      var deleted;
      ok, n, deleted := DeleteAll(deletes);
      if !ok {
        ghost var left := disk.files;
        Restore(backupRoot, written, deleted, snapshot);
        if ready && !disk.undoFailed {
          RestoredAt(stale, before, writes, deletes, m, n, deleted, snapshot, start, filled, left, disk.files);
        }
        return Err(IoFailed), m + n;
      }
      if ready && !disk.undoFailed {
        assert writes[..m] == writes && deletes[..n] == deletes;
        DeletedAre(before, writes, deletes, start, filled, Report(written, deleted));
        AllApplied(stale, before, writes, deletes, start, filled, disk.files);
      }
      return Ok(Report(written, deleted)), m + n;
    }

    /** `apply_transaction`, called at second `seconds`; `k` is the operation that failed, if one did. */
    method ApplyTransaction(writes: seq<JsonWrite>, deletes: seq<Path>, backupDir: seq<string>, seconds: nat)
      returns (r: Result<Report, ConfigError>, ghost k: nat)
      requires disk.Valid()
      modifies disk
      ensures disk.Valid()
      ensures forall p: Path | p.dir != BackupRoot(backupDir, seconds) && p !in Targets(writes, deletes) ::
                (forall t | t in Targets(writes, deletes) :: !IsScratch(t, p)) ==>
                Lookup(disk.files, p) == old(Lookup(disk.files, p))
      ensures Separate(Targets(writes, deletes), BackupRoot(backupDir, seconds)) && !disk.undoFailed ==>
                Outcome(Stale(old(disk.files), BackupRoot(backupDir, seconds)), old(disk.files), writes, deletes, r.Ok?, k,
                        disk.files)
                && (r.Ok? ==> ReportsDeleted(old(disk.files), writes, deletes, r.value))
      ensures Separate(Targets(writes, deletes), BackupRoot(backupDir, seconds)) && !disk.undoFailed && r.Err?
              && RollsBack(Stale(old(disk.files), BackupRoot(backupDir, seconds)), old(disk.files), writes, deletes) ==>
                SameTargets(old(disk.files), disk.files, Targets(writes, deletes))
      ensures (forall p | p in Targets(writes, deletes) :: WithinRoot(p)) && disk.NoFault(old(disk.clock), disk.clock) ==> r.Ok?
      ensures disk.undoFailed ==> old(disk.undoFailed) || disk.TwoFaults(old(disk.clock), disk.clock)
      ensures r.Ok? ==> r.value.written == Paths(writes) && forall p | p in Targets(writes, deletes) :: WithinRoot(p)
    {
      hide IsScratch, WithinRoot, Snapshot, Stale;
      ghost var before := disk.files;
      var targets := Targets(writes, deletes);
      if writes == [] && deletes == [] {
        return Ok(Report([], [])), 0;
      }
      var backupRoot := BackupRoot(backupDir, seconds);
      ghost var stale := Stale(before, backupRoot);
      RollbackRestoresIff(stale, before, writes, deletes);
      var made := disk.CreateDirs(false);
      if !made {
        NothingDone(stale, before, writes, deletes, disk.files);
        return Err(IoFailed), 0;
      }
      var error := TakeSnapshots(backupRoot, targets);
      if error.Some? {
        if Separate(targets, backupRoot) {
          NothingDone(stale, before, writes, deletes, disk.files);
        }
        return Err(error.value), 0;
      }
      r, k := Perform(writes, deletes, backupRoot, before, stale);
    }
  }
}
