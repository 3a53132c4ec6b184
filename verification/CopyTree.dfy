/**
 Copying an extracted release over an installation: an explicit stack of directories, whose
 top-level `config` and `data` are left alone when they already exist.

 The result is stated pointwise, one file at a time, so that it says nothing of stacks.
 */
module CopyTree {
  import opened Common

  type Path = seq<string>

  datatype Node = Dir | File(bytes: seq<int>)

  type Tree = map<Path, Node>

  function Parent(p: Path): Path
    requires p != []
  {
    p[..|p| - 1]
  }

  predicate IsDir(t: Tree, p: Path) {
    p in t && t[p] == Dir
  }

  /** The root is a directory, and so is the parent of everything. */
  ghost predicate Shaped(t: Tree) {
    IsDir(t, []) && forall p | p in t && p != [] :: IsDir(t, Parent(p))
  }

  /** `create_dir_all`: the path and all above it are directories. */
  function WithDirs(t: Tree, p: Path): Tree {
    if p == [] then t else WithDirs(t, Parent(p))[p := Dir]
  }

  // ---------------------------------------------------------------- the overlay

  /** A top-level directory on the list that the destination already has. */
  predicate Preserved(t: Tree, src: Path, dst: Path, preserve: seq<string>, name: string) {
    name in preserve && IsDir(t, src + [name]) && dst + [name] in t
  }

  /** A position of the source tree, below its root, that is copied. */
  predicate Copied(t: Tree, src: Path, dst: Path, preserve: seq<string>, r: Path) {
    r != [] && src + r in t && !Preserved(t, src, dst, preserve, r[0])
  }

  /** What is at a path afterwards: the source's node where one is copied, else what was there. */
  function Overlay(t: Tree, src: Path, dst: Path, preserve: seq<string>, p: Path): Option<Node> {
    if dst <= p && Copied(t, src, dst, preserve, p[|dst|..]) then Some(t[src + p[|dst|..]]) else Lookup(t, p)
  }

  /** The destination is not inside the source.  The source may be inside the destination, where it
      is staged, as long as it does not itself hold its place there. */
  predicate Apart(t: Tree, src: Path, dst: Path) {
    !(src <= dst) && (dst <= src ==> src + src[|dst|..] !in t)
  }

  /** No copied file lands on a directory, and no copied directory on a file. */
  ghost predicate NoClash(t: Tree, src: Path, dst: Path, preserve: seq<string>) {
    forall r | Copied(t, src, dst, preserve, r) && dst + r in t :: t[src + r].Dir? <==> t[dst + r].Dir?
  }

  /** A preserved directory keeps everything it holds. */
  lemma PreservedIsKept(t: Tree, src: Path, dst: Path, preserve: seq<string>, name: string, below: Path)
    requires Preserved(t, src, dst, preserve, name)
    ensures Overlay(t, src, dst, preserve, dst + [name] + below) == Lookup(t, dst + [name] + below)
  {
    NotCopiedBelow(t, src, dst, preserve, name, below);
  }

  /** Overlaying a second time changes nothing, though by then the list may preserve more. */
  lemma OverlayTwice(t: Tree, u: Tree, src: Path, dst: Path, preserve: seq<string>, p: Path)
    requires Shaped(t) && Apart(t, src, dst) && forall q :: Lookup(u, q) == Overlay(t, src, dst, preserve, q)
    ensures Overlay(u, src, dst, preserve, p) == Lookup(u, p)
  {
    if dst <= p && Copied(u, src, dst, preserve, p[|dst|..]) {
      var r := p[|dst|..];
      assert p == dst + r;
      SourceKept(t, u, src, dst, preserve, r);
      SourceKept(t, u, src, dst, preserve, [r[0]]);
      assert Preserved(t, src, dst, preserve, r[0]) ==> Lookup(u, dst + [r[0]]) == Lookup(t, dst + [r[0]]) by {
        assert (dst + [r[0]])[|dst|..] == [r[0]];
      }
    }
  }

  lemma SourceKept(t: Tree, u: Tree, src: Path, dst: Path, preserve: seq<string>, r: Path)
    requires Shaped(t) && Apart(t, src, dst) && forall q :: Lookup(u, q) == Overlay(t, src, dst, preserve, q)
    ensures Lookup(u, src + r) == Lookup(t, src + r)
  {
    SourceIsNoTarget(t, src, dst, preserve, r);
    assert Lookup(u, src + r) == Overlay(t, src, dst, preserve, src + r);
  }

  lemma PrefixesCompare(a: Path, b: Path, whole: Path)
    requires a <= whole && b <= whole
    ensures a <= b || b <= a
  {
    if |a| <= |b| {
      assert a == whole[..|a|] == b[..|a|];
    } else {
      assert b == whole[..|b|] == a[..|b|];
    }
  }

  /** What holds a path holds everything above it. */
  lemma {:induction false} AboveIsThere(t: Tree, p: Path, below: Path)
    requires Shaped(t) && p + below in t
    ensures p in t
    decreases |below|
  {
    if below == [] {
      assert p + below == p;
    } else {
      assert Parent(p + below) == p + Parent(below);
      AboveIsThere(t, p, Parent(below));
    }
  }

  /** No position of the source is one the copy writes. */
  lemma SourceIsNoTarget(t: Tree, src: Path, dst: Path, preserve: seq<string>, x: Path)
    requires Shaped(t) && Apart(t, src, dst)
    ensures !(dst <= src + x && Copied(t, src, dst, preserve, (src + x)[|dst|..]))
  {
    if dst <= src + x {
      PrefixesCompare(dst, src, src + x);
      var s := src[|dst|..];
      assert (src + x)[|dst|..] == s + x;
      assert src + (s + x) == (src + s) + x;
      if src + (s + x) in t {
        AboveIsThere(t, src + s, x);
      }
    }
  }

  // ---------------------------------------------------------------- the host

  ghost predicate ExceptAt(t: Tree, u: Tree, p: Path) {
    forall q | q != p :: Lookup(u, q) == Lookup(t, q)
  }

  class Host {
    var fs: Tree
    var clock: nat
    const fails: nat -> bool
    const tears: nat -> bool
    /** An operation failed for a reason of its own, not because of what is on the disk. */
    ghost var faulted: bool

    constructor (fs: Tree, fails: nat -> bool, tears: nat -> bool)
      ensures this.fs == fs && !faulted && clock == 0 && this.fails == fails && this.tears == tears
    {
      this.fs, clock, this.fails, this.tears, faulted := fs, 0, fails, tears, false;
    }

    /** A fault noted since some moment is one the host really had. */
    ghost predicate Honest(start: nat, before: bool)
      reads this
    {
      start <= clock && (faulted ==> before || SomeFails(start, clock))
    }

    ghost predicate SomeFails(start: nat, end: nat) {
      exists i | start <= i < end :: fails(i)
    }

    lemma OneFails(start: nat, at: nat)
      requires start <= at
      ensures fails(at) ==> SomeFails(start, at + 1)
    {
    }

    lemma Wider(start: nat, mid: nat, end: nat)
      requires start <= mid
      ensures SomeFails(mid, end) ==> SomeFails(start, end)
    {
    }

    method Attempt() returns (ok: bool)
      modifies this`clock, this`faulted
      ensures ok == !fails(old(clock)) && clock == old(clock) + 1 && faulted == (old(faulted) || !ok)
    {
      ok := !fails(clock);
      clock := clock + 1;
      faulted := faulted || !ok;
    }

    /** `list_dir`: the names in a directory, and which of them are directories. */
    method ListDir(p: Path) returns (ok: bool, entries: map<string, bool>)
      modifies this`clock, this`faulted
      ensures clock == old(clock) + 1 && faulted == (old(faulted) || fails(old(clock)))
      ensures ok ==> IsDir(fs, p) && faulted == old(faulted)
      ensures ok ==> forall name :: name in entries <==> p + [name] in fs
      ensures ok ==> forall name | name in entries :: entries[name] == fs[p + [name]].Dir?
      ensures !ok && IsDir(fs, p) ==> faulted
    {
      entries := map[];
      ok := Attempt();
      ok := ok && IsDir(fs, p);
      if ok {
        var names := set q | q in fs && q != [] && Parent(q) == p :: q[|q| - 1];
        forall name ensures name in names <==> p + [name] in fs {
          assert Parent(p + [name]) == p && (p + [name])[|p + [name]| - 1] == name;
          if q :| q in fs && q != [] && Parent(q) == p && q[|q| - 1] == name {
            assert q == p + [name];
          }
        }
        entries := map name | name in names :: fs[p + [name]].Dir?;
      }
    }

    method Exists(p: Path) returns (ok: bool, found: bool)
      modifies this`clock, this`faulted
      ensures clock == old(clock) + 1 && faulted == (old(faulted) || fails(old(clock)))
      ensures ok ==> found == (p in fs) && faulted == old(faulted)
      ensures !ok ==> faulted
    {
      ok := Attempt();
      found := p in fs;
    }

    /** `create_dir_all`: it needs every path above to be a directory or missing. */
    method CreateDirAll(p: Path) returns (ok: bool)
      requires Shaped(fs)
      modifies this
      ensures clock == old(clock) + 1 && faulted == (old(faulted) || fails(old(clock)))
      ensures Shaped(fs) && (fs == old(fs) || fs == WithDirs(old(fs), p))
      ensures ok ==> fs == WithDirs(old(fs), p) && faulted == old(faulted)
      ensures !ok && (forall q | q <= p && q in old(fs) :: IsDir(old(fs), q)) ==> faulted
    {
      var blocked := exists q | q in fs && q <= p :: fs[q].File?;
      var torn := tears(clock);
      ok := Attempt();
      if !blocked && (ok || torn) {
        WithDirsShaped(fs, p);
        fs := WithDirs(fs, p);
      }
      ok := ok && !blocked;
    }

    method ReadFile(p: Path) returns (ok: bool, bytes: seq<int>)
      modifies this`clock, this`faulted
      ensures clock == old(clock) + 1 && faulted == (old(faulted) || fails(old(clock)))
      ensures ok ==> Lookup(fs, p) == Some(File(bytes)) && faulted == old(faulted)
      ensures !ok && p in fs && fs[p].File? ==> faulted
    {
      ok := Attempt();
      ok := ok && p in fs && fs[p].File?;
      bytes := if ok then fs[p].bytes else [];
    }

    /** `write_file`: torn when it fails half way. */
    method WriteFile(p: Path, bytes: seq<int>) returns (ok: bool)
      requires Shaped(fs) && p != []
      modifies this
      ensures clock == old(clock) + 1 && faulted == (old(faulted) || fails(old(clock)))
      ensures Shaped(fs)
      ensures ok ==> fs == old(fs)[p := File(bytes)] && faulted == old(faulted)
      ensures ExceptAt(old(fs), fs, p)
      ensures !ok && IsDir(old(fs), Parent(p)) && !IsDir(old(fs), p) ==> faulted
    {
      var possible := IsDir(fs, Parent(p)) && !IsDir(fs, p);
      var torn := tears(clock);
      ok := Attempt();
      if possible && (ok || torn) {
        fs := fs[p := File(if ok then bytes else [])];
      }
      ok := ok && possible;
    }
  }

  lemma {:induction false} WithDirsShaped(t: Tree, p: Path)
    requires Shaped(t) && forall q | q <= p && q in t :: IsDir(t, q)
    ensures Shaped(WithDirs(t, p)) && IsDir(WithDirs(t, p), p)
    ensures forall q | !(q <= p) :: Lookup(WithDirs(t, p), q) == Lookup(t, q)
    ensures IsDir(t, p) ==> WithDirs(t, p) == t
    ensures p != [] && IsDir(t, Parent(p)) ==> WithDirs(t, p) == t[p := Dir]
  {
    if p != [] {
      forall q | q <= Parent(p) && q in t ensures IsDir(t, q) {
        assert q <= p;
      }
      WithDirsShaped(t, Parent(p));
      var u := WithDirs(t, Parent(p));
      assert Parent(p) <= p;
      forall q | q in u[p := Dir] && q != [] ensures IsDir(u[p := Dir], Parent(q)) {
        if q == p {
          assert IsDir(u, Parent(p));
        }
      }
      if IsDir(t, p) {
        assert t[p := Dir] == t;
      }
    }
  }

  // ---------------------------------------------------------------- the worklist

  /** One directory still to be copied. */
  datatype Item = Item(src: Path, dst: Path, isTop: bool)

  /** The fixed part of a copy: the tree it started from and the two roots. */
  datatype Job = Job(t: Tree, src: Path, dst: Path, preserve: seq<string>) {
    predicate Takes(r: Path) {
      Copied(t, src, dst, preserve, r)
    }

    /** A directory the copy must go through, its root among them. */
    predicate Enters(r: Path) {
      IsDir(t, src + r) && (r == [] || Takes(r))
    }

    function At(r: Path): Item {
      Item(src + r, dst + r, r == [])
    }

    ghost predicate Valid() {
      Shaped(t) && Apart(t, src, dst) && IsDir(t, dst)
    }
  }

  /** An entry of a directory already gone through, or of the current one and not among `todo`. */
  predicate Handled(through: set<Path>, cur: Option<Path>, todo: set<string>, r: Path) {
    r != [] && (Parent(r) in through || (cur == Some(Parent(r)) && r[|r| - 1] !in todo))
  }

  /** What the destination shows at a position. */
  function Out(job: Job, fs: Tree, r: Path): Option<Node> {
    Lookup(fs, job.dst + r)
  }

  /** Handled positions the copy takes show the source's node, everything else is as before. */
  ghost predicate Settled(job: Job, fs: Tree, through: set<Path>, cur: Option<Path>, todo: set<string>) {
    && (forall r :: Out(job, fs, r)
          == if Handled(through, cur, todo, r) && job.Takes(r) then Lookup(job.t, job.src + r) else Out(job, job.t, r))
    && forall p | !(job.dst <= p) :: Lookup(fs, p) == Lookup(job.t, p)
  }

  /** Every handled directory was gone through or waits on the stack. */
  ghost predicate NoneForgotten(job: Job, through: set<Path>, waiting: seq<Path>, cur: Option<Path>, todo: set<string>) {
    forall r | Handled(through, cur, todo, r) && job.Takes(r) && IsDir(job.t, job.src + r) :: r in through || r in waiting || cur == Some(r)
  }

  /** Only paths the copy takes differ. */
  ghost predicate OnlyTaken(job: Job, fs: Tree) {
    && (forall r | !job.Takes(r) :: Out(job, fs, r) == Out(job, job.t, r))
    && forall p | !(job.dst <= p) :: Lookup(fs, p) == Lookup(job.t, p)
  }

  /** The stack holds these directories, in this order, each once. */
  ghost predicate Listed(job: Job, stack: seq<Item>, waiting: seq<Path>) {
    && |stack| == |waiting| && (forall i | 0 <= i < |stack| :: stack[i] == job.At(waiting[i]))
    && forall i, j | 0 <= i < j < |waiting| :: waiting[i] != waiting[j]
  }

  /** They are directories to enter whose parents were gone through, or are being so. */
  ghost predicate InPlace(job: Job, waiting: seq<Path>, through: set<Path>, cur: Option<Path>) {
    && (forall r | r in through :: job.Enters(r) && (r != [] ==> Parent(r) in through))
    && (forall r | cur == Some(r) :: r !in through && (r != [] ==> job.Enters(r) && Parent(r) in through))
    && (forall r | r in waiting :: r !in through && cur != Some(r)
          && (r != [] ==> job.Enters(r) && (Parent(r) in through || cur == Some(Parent(r)))))
  }

  lemma SettledOnlyTaken(job: Job, fs: Tree, through: set<Path>, cur: Option<Path>, todo: set<string>)
    requires Settled(job, fs, through, cur, todo)
    ensures OnlyTaken(job, fs)
  {
    hide Handled;
  }

  /** The copy reads from a source as it was at the start. */
  lemma SourceUntouched(job: Job, fs: Tree, x: Path)
    requires job.Valid() && OnlyTaken(job, fs)
    ensures Lookup(fs, job.src + x) == Lookup(job.t, job.src + x)
  {
    hide Copied;
    SourceIsNoTarget(job.t, job.src, job.dst, job.preserve, x);
    if job.dst <= job.src + x {
      var r := (job.src + x)[|job.dst|..];
      assert job.src + x == job.dst + r;
      assert Out(job, fs, r) == Out(job, job.t, r);
    }
  }

  lemma TakesBelow(job: Job, cur: Path, name: string)
    requires cur == [] || job.Takes(cur)
    requires job.src + cur + [name] in job.t
    ensures job.src + (cur + [name]) in job.t && job.src + (cur + [name]) == job.src + cur + [name]
    ensures job.dst + (cur + [name]) == job.dst + cur + [name]
    ensures job.Takes(cur + [name]) <==> !(cur == [] && Preserved(job.t, job.src, job.dst, job.preserve, name))
    ensures Parent(cur + [name]) == cur && (cur + [name])[|cur|] == name
  {
    assert job.src + (cur + [name]) == job.src + cur + [name];
    assert job.dst + (cur + [name]) == job.dst + cur + [name];
  }

  /** Changing one node of the destination changes what it shows at that position only. */
  lemma OutOfUpdate(job: Job, fs: Tree, r: Path, n: Node)
    ensures forall x :: Out(job, fs[job.dst + r := n], x) == if x == r then Some(n) else Out(job, fs, x)
    ensures forall p | !(job.dst <= p) :: Lookup(fs[job.dst + r := n], p) == Lookup(fs, p)
  {
    forall x ensures Out(job, fs[job.dst + r := n], x) == if x == r then Some(n) else Out(job, fs, x) {
      assert (job.dst + x)[|job.dst|..] == x && (job.dst + r)[|job.dst|..] == r;
    }
  }

  lemma HandledStep(through: set<Path>, cur: Path, todo: set<string>, name: string, x: Path)
    requires name in todo
    ensures Handled(through, Some(cur), todo - {name}, x)
      <==> Handled(through, Some(cur), todo, x) || x == cur + [name]
  {
    assert Parent(cur + [name]) == cur && (cur + [name])[|cur|] == name;
    if x != [] && Parent(x) == cur && x[|x| - 1] == name {
      assert x == cur + [name];
    }
  }

  /** A name that is skipped is handled. */
  lemma SkippedOne(job: Job, fs: Tree, through: set<Path>, waiting: seq<Path>, cur: Path, todo: set<string>, name: string)
    requires Settled(job, fs, through, Some(cur), todo) && NoneForgotten(job, through, waiting, Some(cur), todo)
    requires name in todo && !job.Takes(cur + [name])
    ensures Settled(job, fs, through, Some(cur), todo - {name})
    ensures NoneForgotten(job, through, waiting, Some(cur), todo - {name})
  {
    hide Handled, Copied;
    forall x { HandledStep(through, cur, todo, name, x); }
  }

  /** A name whose node has been copied is handled. */
  lemma CopiedOne(job: Job, fs: Tree, through: set<Path>, waiting: seq<Path>, cur: Path, todo: set<string>, name: string)
    requires Settled(job, fs, through, Some(cur), todo) && NoneForgotten(job, through, waiting, Some(cur), todo)
    requires name in todo && job.Takes(cur + [name]) && job.src + (cur + [name]) in job.t
    ensures var r := cur + [name];
      Settled(job, fs[job.dst + r := job.t[job.src + r]], through, Some(cur), todo - {name})
    ensures NoneForgotten(job, through, if IsDir(job.t, job.src + (cur + [name])) then waiting + [cur + [name]] else waiting,
                          Some(cur), todo - {name})
  {
    hide Handled, Copied;
    forall x { HandledStep(through, cur, todo, name, x); }
    OutOfUpdate(job, fs, cur + [name], job.t[job.src + (cur + [name])]);
  }

  /** When all names of a directory are handled it has been gone through. */
  lemma WentThrough(job: Job, fs: Tree, through: set<Path>, waiting: seq<Path>, cur: Path)
    requires Settled(job, fs, through, Some(cur), {}) && NoneForgotten(job, through, waiting, Some(cur), {})
    ensures Settled(job, fs, through + {cur}, None, {}) && NoneForgotten(job, through + {cur}, waiting, None, {})
  {
    forall x ensures Handled(through + {cur}, None, {}, x) == Handled(through, Some(cur), {}, x) {
    }
  }

  /** Opening a directory: none of its entries is handled yet. */
  lemma Opened(job: Job, fs: Tree, through: set<Path>, waiting: seq<Path>, cur: Path, names: set<string>)
    requires Settled(job, fs, through, None, {}) && NoneForgotten(job, through, waiting + [cur], None, {})
    requires cur !in through && forall name :: name in names <==> job.src + cur + [name] in job.t
    requires cur == [] || Parent(cur) in through
    ensures Settled(job, fs, through, Some(cur), names) && NoneForgotten(job, through, waiting, Some(cur), names)
  {
    hide Preserved;
    forall x ensures Handled(through, Some(cur), names, x) && job.Takes(x) <==> Handled(through, None, {}, x) && job.Takes(x) {
      if x != [] && Parent(x) == cur && job.Takes(x) {
        assert x == cur + [x[|x| - 1]];
        assert job.src + x == job.src + cur + [x[|x| - 1]];
      }
    }
  }

  /** The directories of the source. */
  ghost function Directories(job: Job): set<Path> {
    set q | q in job.t && job.src <= q && job.t[q] == Dir :: q[|job.src|..]
  }

  lemma EnteredAreDirectories(job: Job, r: Path)
    requires job.Enters(r)
    ensures r in Directories(job)
  {
    assert (job.src + r)[|job.src|..] == r && job.src <= job.src + r;
  }

  /** With nothing waiting, every directory the copy enters was gone through. */
  lemma {:induction false} AllThrough(job: Job, through: set<Path>, r: Path)
    requires job.Valid() && NoneForgotten(job, through, [], None, {}) && [] in through && job.Enters(r)
    ensures r in through
    decreases |r|
  {
    if r != [] {
      var up := Parent(r);
      assert job.src + up == Parent(job.src + r);
      assert up != [] ==> up[0] == r[0];
      AllThrough(job, through, up);
      assert Handled(through, None, {}, r);
    }
  }

  /** Then the destination is the overlay. */
  lemma FinishedIsOverlay(job: Job, fs: Tree, through: set<Path>, p: Path)
    requires job.Valid() && Settled(job, fs, through, None, {}) && NoneForgotten(job, through, [], None, {}) && [] in through
    ensures Lookup(fs, p) == Overlay(job.t, job.src, job.dst, job.preserve, p)
  {
    if job.dst <= p {
      var r := p[|job.dst|..];
      assert p == job.dst + r && Lookup(fs, p) == Out(job, fs, r);
      if job.Takes(r) {
        var up := Parent(r);
        assert job.src + up == Parent(job.src + r);
        assert up != [] ==> up[0] == r[0];
        AllThrough(job, through, up);
        assert Handled(through, None, {}, r);
      }
    }
  }

  /** Where one entry goes, and what is known of it before it is copied. */
  ghost predicate Due(job: Job, fs: Tree, cur: Path, name: string) {
    && job.Valid() && Shaped(fs) && (cur == [] || job.Takes(cur)) && job.src + cur + [name] in job.t
    && IsDir(fs, job.dst + cur) && OnlyTaken(job, fs)
    && Out(job, fs, cur + [name]) == Out(job, job.t, cur + [name])
  }

  /** The entry's node as it will be at the destination. */
  ghost predicate Landed(job: Job, before: Tree, after: Tree, cur: Path, name: string)
    requires job.src + (cur + [name]) in job.t
  {
    after == before[job.dst + (cur + [name]) := job.t[job.src + (cur + [name])]]
  }

  lemma DueFacts(job: Job, fs: Tree, cur: Path, name: string)
    requires Due(job, fs, cur, name)
    ensures var r := cur + [name];
      && job.src + r == job.src + cur + [name] && job.dst + r == job.dst + cur + [name] && job.src + r in job.t
      && (job.Takes(r) <==> !(cur == [] && Preserved(job.t, job.src, job.dst, job.preserve, name)))
      && Parent(job.dst + r) == job.dst + cur && IsDir(fs, Parent(job.dst + r))
      && Lookup(fs, job.src + r) == Lookup(job.t, job.src + r)
      && Lookup(fs, job.dst + r) == Lookup(job.t, job.dst + r)
  {
    hide Copied, Preserved, Shaped, OnlyTaken;
    TakesBelow(job, cur, name);
    SourceUntouched(job, fs, cur + [name]);
    assert Parent(job.dst + (cur + [name])) == job.dst + cur;
  }

  /** A directory entry: skipped if it is preserved, else made and pushed. */
  method CopyDirectory(host: Host, item: Item, name: string, ghost job: Job, ghost cur: Path, preserve: seq<string>)
    returns (ok: bool, push: bool)
    requires Due(job, host.fs, cur, name) && item == job.At(cur) && preserve == job.preserve
    requires job.t[job.src + cur + [name]].Dir?
    modifies host
    ensures Shaped(host.fs) && (ok ==> host.faulted == old(host.faulted)) && job.src + (cur + [name]) in job.t
    ensures host.Honest(old(host.clock), old(host.faulted))
    ensures ok ==> push == job.Takes(cur + [name])
    ensures ok ==> if push then Landed(job, old(host.fs), host.fs, cur, name) else host.fs == old(host.fs)
    ensures !ok ==> ExceptAt(old(host.fs), host.fs, job.dst + (cur + [name]))
    ensures !ok && !job.Takes(cur + [name]) ==> host.fs == old(host.fs)
    ensures !ok && NoClash(job.t, job.src, job.dst, job.preserve) ==> host.faulted
  {
    hide Copied;
    push := false;
    var srcChild, dstChild := item.src + [name], item.dst + [name];
    DueFacts(job, host.fs, cur, name);
    ClashAt(job, cur + [name]);
    if item.isTop && name in preserve {
      var found;
      ok, found := host.Exists(dstChild);
      if !ok || found {
        return;
      }
    }
    WithDirsShapedUnder(host.fs, dstChild);
    ok := host.CreateDirAll(dstChild);
    push := ok;
  }

  /** A file entry: read whole, then written. */
  method CopyFile(host: Host, item: Item, name: string, ghost job: Job, ghost cur: Path) returns (ok: bool)
    requires Due(job, host.fs, cur, name) && item == job.At(cur) && job.t[job.src + cur + [name]].File?
    modifies host
    ensures Shaped(host.fs) && (ok ==> host.faulted == old(host.faulted)) && job.src + (cur + [name]) in job.t
    ensures host.Honest(old(host.clock), old(host.faulted))
    ensures job.Takes(cur + [name]) && (ok ==> Landed(job, old(host.fs), host.fs, cur, name))
    ensures !ok ==> ExceptAt(old(host.fs), host.fs, job.dst + (cur + [name]))
    ensures !ok && NoClash(job.t, job.src, job.dst, job.preserve) ==> host.faulted
  {
    hide Copied;
    var srcChild, dstChild := item.src + [name], item.dst + [name];
    DueFacts(job, host.fs, cur, name);
    ClashAt(job, cur + [name]);
    var bytes;
    ok, bytes := host.ReadFile(srcChild);
    if ok {
      ok := host.WriteFile(dstChild, bytes);
    }
  }

  /** A change at one taken position alone. */
  lemma TakenAlone(job: Job, before: Tree, after: Tree, r: Path)
    requires OnlyTaken(job, before)
    requires (job.Takes(r) && ExceptAt(before, after, job.dst + r)) || before == after
    ensures OnlyTaken(job, after)
  {
    forall x | !job.Takes(x) ensures Out(job, after, x) == Out(job, job.t, x) {
      assert (job.dst + x)[|job.dst|..] == x && (job.dst + r)[|job.dst|..] == r;
    }
  }

  /** The middle of a directory: of `cur`, everything but `todo` is handled. */
  ghost predicate Midway(job: Job, fs: Tree, stack: seq<Item>, waiting: seq<Path>, through: set<Path>, cur: Path,
                         todo: set<string>) {
    && job.Valid() && Shaped(fs)
    && Settled(job, fs, through, Some(cur), todo) && NoneForgotten(job, through, waiting, Some(cur), todo)
    && Listed(job, stack, waiting) && InPlace(job, waiting, through, Some(cur)) && NotYet(waiting, cur, todo)
    && forall r | r in waiting || r == cur :: IsDir(fs, job.dst + r)
  }

  lemma MidwayDue(job: Job, fs: Tree, stack: seq<Item>, waiting: seq<Path>, through: set<Path>, cur: Path,
                  todo: set<string>, name: string)
    requires Midway(job, fs, stack, waiting, through, cur, todo)
    requires name in todo && job.src + cur + [name] in job.t
    ensures Due(job, fs, cur, name) && OnlyTaken(job, fs) && job.src + (cur + [name]) in job.t
  {
    hide Settled, NoneForgotten, Listed, InPlace, Due, OnlyTaken;
    EntryDue(job, fs, through, waiting, cur, todo, name);
    SettledOnlyTaken(job, fs, through, Some(cur), todo);
    assert job.src + (cur + [name]) == job.src + cur + [name];
  }

  lemma MidwaySkip(job: Job, fs: Tree, stack: seq<Item>, waiting: seq<Path>, through: set<Path>, cur: Path,
                   todo: set<string>, name: string)
    requires Midway(job, fs, stack, waiting, through, cur, todo) && name in todo && !job.Takes(cur + [name])
    ensures Midway(job, fs, stack, waiting, through, cur, todo - {name})
  {
    hide Settled, NoneForgotten, Listed, InPlace, Shaped;
    SkippedOne(job, fs, through, waiting, cur, todo, name);
  }

  lemma MidwayFile(job: Job, fs: Tree, fs': Tree, stack: seq<Item>, waiting: seq<Path>, through: set<Path>, cur: Path,
                   todo: set<string>, name: string)
    requires Midway(job, fs, stack, waiting, through, cur, todo) && name in todo && job.Takes(cur + [name])
    requires job.src + (cur + [name]) in job.t && job.t[job.src + (cur + [name])].File?
    requires Landed(job, fs, fs', cur, name) && Shaped(fs')
    ensures Midway(job, fs', stack, waiting, through, cur, todo - {name})
  {
    hide Settled, NoneForgotten, Listed, InPlace, Shaped, Copied;
    CopiedOne(job, fs, through, waiting, cur, todo, name);
    assert cur + [name] != cur;
    DirsStay(job, fs, fs', waiting, cur, cur + [name]);
  }

  lemma MidwayDirectory(job: Job, fs: Tree, fs': Tree, stack: seq<Item>, waiting: seq<Path>, through: set<Path>, cur: Path,
                        todo: set<string>, name: string)
    requires Midway(job, fs, stack, waiting, through, cur, todo) && name in todo && job.Takes(cur + [name])
    requires job.src + (cur + [name]) in job.t && job.t[job.src + (cur + [name])].Dir?
    requires Landed(job, fs, fs', cur, name) && Shaped(fs')
    ensures Midway(job, fs', stack + [Item(job.src + cur + [name], job.dst + cur + [name], false)], waiting + [cur + [name]],
                   through, cur, todo - {name})
  {
    hide Settled, NoneForgotten, Listed, InPlace, Shaped, Copied;
    CopiedOne(job, fs, through, waiting, cur, todo, name);
    assert cur + [name] != cur;
    DirsStay(job, fs, fs', waiting, cur, cur + [name]);
    NotYetPush(waiting, cur, todo, name);
    Push(job, stack, waiting, through, cur, name);
  }

  /** All entries of one directory. */
  method CopyEntries(host: Host, item: Item, entries: map<string, bool>, stack: seq<Item>, preserve: seq<string>,
                     ghost job: Job, ghost through: set<Path>, ghost waiting: seq<Path>, ghost cur: Path)
    returns (ok: bool, stack': seq<Item>, ghost waiting': seq<Path>)
    requires item == job.At(cur) && preserve == job.preserve
    requires forall name | name in entries ::
               job.src + cur + [name] in job.t && entries[name] == job.t[job.src + cur + [name]].Dir?
    requires Midway(job, host.fs, stack, waiting, through, cur, entries.Keys)
    modifies host
    ensures ok ==> Midway(job, host.fs, stack', waiting', through, cur, {}) && host.faulted == old(host.faulted)
    ensures !ok ==> Shaped(host.fs) && OnlyTaken(job, host.fs)
    ensures host.Honest(old(host.clock), old(host.faulted))
    ensures !ok && NoClash(job.t, job.src, job.dst, job.preserve) ==> host.faulted
  {
    hide Copied, NoClash, Midway, OnlyTaken, ExceptAt, Due, Landed, Shaped;
    stack', waiting' := stack, waiting;
    var todo := entries.Keys;
    while todo != {}
      invariant todo <= entries.Keys && host.faulted == old(host.faulted) && old(host.clock) <= host.clock
      invariant Midway(job, host.fs, stack', waiting', through, cur, todo)
    {
      var name :| name in todo;
      MidwayDue(job, host.fs, stack', waiting', through, cur, todo, name);
      ghost var before, r := host.fs, cur + [name];
      assert job.src + r == job.src + cur + [name];
      var push := false;
      if entries[name] {
        ok, push := CopyDirectory(host, item, name, job, cur, preserve);
      } else {
        ok := CopyFile(host, item, name, job, cur);
      }
      if !ok {
        TakenAlone(job, before, host.fs, r);
        return;
      }
      if push {
        MidwayDirectory(job, before, host.fs, stack', waiting', through, cur, todo, name);
        stack', waiting' := stack' + [Item(item.src + [name], item.dst + [name], false)], waiting' + [r];
      } else if entries[name] {
        MidwaySkip(job, before, stack', waiting', through, cur, todo, name);
      } else {
        MidwayFile(job, before, host.fs, stack', waiting', through, cur, todo, name);
      }
      todo := todo - {name};
    }
    ok := true;
  }

  lemma ClashAt(job: Job, r: Path)
    ensures NoClash(job.t, job.src, job.dst, job.preserve) && job.Takes(r) && job.dst + r in job.t ==>
      (job.t[job.src + r].Dir? <==> job.t[job.dst + r].Dir?)
  {
  }

  lemma WithDirsShapedUnder(t: Tree, p: Path)
    requires Shaped(t) && p != [] && IsDir(t, Parent(p))
    ensures WithDirs(t, p) == t[p := Dir]
    ensures !(p in t && t[p].File?) ==> forall q | q <= p && q in t :: IsDir(t, q)
  {
    forall q | q <= p && q in t && q != p ensures IsDir(t, q) {
      AncestorsAreDirs(t, Parent(p), q);
    }
    WithDirsOnDir(t, Parent(p));
  }

  lemma {:induction false} AncestorsAreDirs(t: Tree, p: Path, q: Path)
    requires Shaped(t) && IsDir(t, p) && q <= p
    ensures IsDir(t, q)
  {
    if q != p {
      AncestorsAreDirs(t, Parent(p), q);
    }
  }

  lemma {:induction false} WithDirsOnDir(t: Tree, p: Path)
    requires Shaped(t) && IsDir(t, p)
    ensures WithDirs(t, p) == t
  {
    if p != [] {
      WithDirsOnDir(t, Parent(p));
      assert t[p := Dir] == t;
    }
  }

  /** An entry not yet handled is due. */
  lemma EntryDue(job: Job, fs: Tree, through: set<Path>, waiting: seq<Path>, cur: Path, todo: set<string>, name: string)
    requires job.Valid() && Shaped(fs) && Settled(job, fs, through, Some(cur), todo)
    requires InPlace(job, waiting, through, Some(cur)) && NotYet(waiting, cur, todo)
    requires name in todo && job.src + cur + [name] in job.t && IsDir(fs, job.dst + cur)
    ensures Due(job, fs, cur, name) && cur + [name] !in waiting && cur + [name] != cur
  {
    hide Copied, Shaped;
    SettledOnlyTaken(job, fs, through, Some(cur), todo);
    var r := cur + [name];
    assert Parent(r) == cur && r[|r| - 1] == name;
    assert !Handled(through, Some(cur), todo, r);
    assert Out(job, fs, r) == Out(job, job.t, r);
  }

  /** Landing one node leaves the waiting directories directories. */
  lemma DirsStay(job: Job, before: Tree, after: Tree, waiting: seq<Path>, cur: Path, r: Path)
    requires job.src + r in job.t && r != cur
    requires after == before[job.dst + r := job.t[job.src + r]]
    requires forall x | x in waiting || x == cur :: IsDir(before, job.dst + x)
    requires job.t[job.src + r].Dir? || r !in waiting
    ensures forall x | x in waiting || x == cur :: IsDir(after, job.dst + x)
    ensures job.t[job.src + r].Dir? ==> IsDir(after, job.dst + r)
  {
    forall x ensures job.dst + x == job.dst + r <==> x == r {
      assert (job.dst + x)[|job.dst|..] == x && (job.dst + r)[|job.dst|..] == r;
    }
  }

  /** No name still to do is on the stack. */
  ghost predicate NotYet(waiting: seq<Path>, cur: Path, todo: set<string>) {
    forall name | name in todo :: cur + [name] !in waiting
  }

  lemma NotYetPush(waiting: seq<Path>, cur: Path, todo: set<string>, name: string)
    requires NotYet(waiting, cur, todo)
    ensures NotYet(waiting + [cur + [name]], cur, todo - {name})
  {
    forall other | other in todo - {name} ensures cur + [other] !in waiting + [cur + [name]] {
      assert (cur + [other])[|cur|] == other && (cur + [name])[|cur|] == name;
    }
  }

  lemma Push(job: Job, stack: seq<Item>, waiting: seq<Path>, through: set<Path>, cur: Path, name: string)
    requires Listed(job, stack, waiting) && InPlace(job, waiting, through, Some(cur)) && job.Enters(cur + [name])
    requires cur + [name] !in waiting
    ensures Listed(job, stack + [Item(job.src + cur + [name], job.dst + cur + [name], false)], waiting + [cur + [name]])
    ensures InPlace(job, waiting + [cur + [name]], through, Some(cur))
  {
    hide Copied;
    var r := cur + [name];
    assert Parent(r) == cur && r != cur;
    assert job.At(r) == Item(job.src + cur + [name], job.dst + cur + [name], false);
    ListedPush(job, stack, waiting, r);
    InPlacePush(job, waiting, through, cur, r);
  }

  lemma ListedPush(job: Job, stack: seq<Item>, waiting: seq<Path>, r: Path)
    requires Listed(job, stack, waiting) && r !in waiting
    ensures Listed(job, stack + [job.At(r)], waiting + [r])
  {
  }

  lemma InPlacePush(job: Job, waiting: seq<Path>, through: set<Path>, cur: Path, r: Path)
    requires InPlace(job, waiting, through, Some(cur)) && r != [] && Parent(r) == cur && job.Enters(r)
    ensures InPlace(job, waiting + [r], through, Some(cur))
  {
    hide Copied;
    assert r != cur;
    forall x | x in waiting + [r] ensures x in waiting || x == r {
    }
  }

  // ---------------------------------------------------------------- the whole copy

  /** Between two directories. */
  ghost predicate Between(job: Job, fs: Tree, stack: seq<Item>, waiting: seq<Path>, through: set<Path>) {
    && job.Valid() && Shaped(fs)
    && Settled(job, fs, through, None, {}) && NoneForgotten(job, through, waiting, None, {})
    && Listed(job, stack, waiting) && InPlace(job, waiting, through, None)
    && ([] in through || waiting == [[]])
    && forall r | r in waiting :: IsDir(fs, job.dst + r)
  }

  lemma AtTheStart(job: Job)
    requires job.Valid()
    ensures Between(job, job.t, [Item(job.src, job.dst, true)], [[]], {})
  {
    assert job.src + [] == job.src && job.dst + [] == job.dst;
  }

  /** Taking a directory off the stack and listing it. */
  lemma Open(job: Job, fs: Tree, stack: seq<Item>, waiting: seq<Path>, through: set<Path>, names: set<string>)
    requires Between(job, fs, stack, waiting, through) && stack != []
    requires var cur := waiting[|waiting| - 1];
      IsDir(job.t, job.src + cur) && forall name :: name in names <==> job.src + cur + [name] in job.t
    ensures var n := |waiting| - 1;
      Midway(job, fs, stack[..n], waiting[..n], through, waiting[n], names)
  {
    hide Settled, NoneForgotten, InPlace, Shaped, Listed, Copied;
    ListedPop(job, stack, waiting);
    var n := |waiting| - 1;
    var cur := waiting[n];
    assert waiting == waiting[..n] + [cur];
    assert forall r :: r in waiting <==> r in waiting[..n] || r == cur;
    OpenInPlace(job, waiting, through);
    Opened(job, fs, through, waiting[..n], cur, names);
    forall name | name in names ensures cur + [name] !in waiting[..n] {
      assert Parent(cur + [name]) == cur;
    }
  }

  lemma ListedPop(job: Job, stack: seq<Item>, waiting: seq<Path>)
    requires Listed(job, stack, waiting) && stack != []
    ensures |stack| == |waiting| && Listed(job, stack[..|stack| - 1], waiting[..|waiting| - 1])
    ensures forall i, j | 0 <= i < j < |waiting| :: waiting[i] != waiting[j]
  {
  }

  lemma OpenInPlace(job: Job, waiting: seq<Path>, through: set<Path>)
    requires waiting != [] && InPlace(job, waiting, through, None)
    requires forall i, j | 0 <= i < j < |waiting| :: waiting[i] != waiting[j]
    ensures InPlace(job, waiting[..|waiting| - 1], through, Some(waiting[|waiting| - 1]))
    ensures waiting[|waiting| - 1] !in through
    ensures waiting[|waiting| - 1] == [] || Parent(waiting[|waiting| - 1]) in through
    ensures forall r | r in waiting[..|waiting| - 1] && r != [] :: Parent(r) in through
  {
    hide Copied;
    var n := |waiting| - 1;
    assert waiting[n] in waiting;
    forall r | r in waiting[..n] ensures r in waiting && r != waiting[n] {
      var i :| 0 <= i < n && waiting[i] == r;
    }
  }

  /** A directory whose entries are all handled joins those gone through. */
  lemma Close(job: Job, fs: Tree, stack: seq<Item>, waiting: seq<Path>, through: set<Path>, cur: Path)
    requires Midway(job, fs, stack, waiting, through, cur, {}) && IsDir(job.t, job.src + cur)
    requires [] in through || cur == []
    ensures Between(job, fs, stack, waiting, through + {cur}) && job.Enters(cur) && cur !in through
  {
    hide Copied, Shaped, Settled, NoneForgotten;
    WentThrough(job, fs, through, waiting, cur);
  }

  lemma BetweenFacts(job: Job, fs: Tree, stack: seq<Item>, waiting: seq<Path>, through: set<Path>)
    requires Between(job, fs, stack, waiting, through)
    ensures |stack| == |waiting| && OnlyTaken(job, fs) && Shaped(fs) && job.Valid()
    ensures stack == [] ==> [] in through && Settled(job, fs, through, None, {}) && NoneForgotten(job, through, [], None, {})
    ensures stack != [] ==>
      var cur := waiting[|waiting| - 1];
      stack[|stack| - 1] == job.At(cur) && (cur == [] || job.Enters(cur)) && ([] in through || cur == [])
      && IsDir(fs, job.src + cur) == IsDir(job.t, job.src + cur) && (cur == [] ==> job.src + cur == job.src)
  {
    hide Copied, Handled;
    SettledOnlyTaken(job, fs, through, None, {});
    if stack != [] {
      var cur := waiting[|waiting| - 1];
      assert cur in waiting;
      SourceUntouched(job, fs, cur);
    }
  }

  lemma TakenFor(job: Job, fs: Tree)
    requires OnlyTaken(job, fs)
    ensures forall p | !(job.dst <= p && Copied(job.t, job.src, job.dst, job.preserve, p[|job.dst|..])) ::
              Lookup(fs, p) == Lookup(job.t, p)
  {
    hide Copied;
    forall p | !(job.dst <= p && job.Takes(p[|job.dst|..])) ensures Lookup(fs, p) == Lookup(job.t, p) {
      if job.dst <= p {
        assert p == job.dst + p[|job.dst|..];
        assert Out(job, fs, p[|job.dst|..]) == Out(job, job.t, p[|job.dst|..]);
      }
    }
  }

  lemma ListedEntries(job: Job, fs: Tree, cur: Path, entries: map<string, bool>)
    requires job.Valid() && OnlyTaken(job, fs)
    requires forall name :: name in entries <==> job.src + cur + [name] in fs
    requires forall name | name in entries :: entries[name] == fs[job.src + cur + [name]].Dir?
    ensures forall name :: name in entries <==> job.src + cur + [name] in job.t
    ensures forall name | name in entries :: entries[name] == job.t[job.src + cur + [name]].Dir?
  {
    forall name ensures Lookup(fs, job.src + cur + [name]) == Lookup(job.t, job.src + cur + [name]) {
      SourceUntouched(job, fs, cur + [name]);
      assert job.src + (cur + [name]) == job.src + cur + [name];
    }
  }

  /** One turn: the directory on top of the stack is listed and its entries are handled. */
  method CopyNext(host: Host, stack: seq<Item>, preserve: seq<string>, ghost job: Job, ghost through: set<Path>,
                  ghost waiting: seq<Path>)
    returns (ok: bool, stack': seq<Item>, ghost waiting': seq<Path>, ghost cur: Path)
    requires Between(job, host.fs, stack, waiting, through) && stack != [] && preserve == job.preserve
    modifies host
    ensures ok ==> Between(job, host.fs, stack', waiting', through + {cur}) && host.faulted == old(host.faulted)
    ensures ok ==> job.Enters(cur) && cur !in through
    ensures !ok ==> OnlyTaken(job, host.fs)
    ensures !ok && IsDir(job.t, job.src) && NoClash(job.t, job.src, job.dst, job.preserve) ==> host.faulted
    ensures host.Honest(old(host.clock), old(host.faulted))
  {
    hide Copied, NoClash, Midway, Between, Shaped, OnlyTaken, Host.SomeFails, Job.Valid;
    BetweenFacts(job, host.fs, stack, waiting, through);
    var item := stack[|stack| - 1];
    cur := waiting[|waiting| - 1];
    stack', waiting' := stack, waiting;
    var entries;
    ok, entries := host.ListDir(item.src);
    host.OneFails(old(host.clock), old(host.clock));
    if ok {
      ListedEntries(job, host.fs, cur, entries);
      Open(job, host.fs, stack, waiting, through, entries.Keys);
      ghost var now := host.clock;
      ok, stack', waiting' := CopyEntries(host, item, entries, stack[..|stack| - 1], preserve, job, through,
                                          waiting[..|waiting| - 1], cur);
      host.Wider(old(host.clock), now, host.clock);
      if ok {
        Close(job, host.fs, stack', waiting', through, cur);
      }
    }
  }

  /** `copy_tree`.  It ends because every directory is gone through at most once. */
  method CopyTree(host: Host, srcRoot: Path, dstRoot: Path, preserve: seq<string>) returns (ok: bool)
    requires Shaped(host.fs) && Apart(host.fs, srcRoot, dstRoot) && IsDir(host.fs, dstRoot)
    modifies host
    ensures ok ==> forall p :: Lookup(host.fs, p) == Overlay(old(host.fs), srcRoot, dstRoot, preserve, p)
    ensures forall p | !(dstRoot <= p && Copied(old(host.fs), srcRoot, dstRoot, preserve, p[|dstRoot|..])) ::
              Lookup(host.fs, p) == old(Lookup(host.fs, p))
    ensures (ok ==> host.faulted == old(host.faulted)) && host.Honest(old(host.clock), old(host.faulted))
    ensures IsDir(old(host.fs), srcRoot) && NoClash(old(host.fs), srcRoot, dstRoot, preserve) && !host.faulted ==> ok
  {
    hide Copied, NoClash, Midway, Between, Shaped, OnlyTaken, Host.SomeFails;
    ghost var job := Job(host.fs, srcRoot, dstRoot, preserve);
    AtTheStart(job);
    ghost var through: set<Path>, waiting: seq<Path> := {}, [[]];
    var stack := [Item(srcRoot, dstRoot, true)];
    while stack != []
      invariant Between(job, host.fs, stack, waiting, through)
      invariant host.faulted == old(host.faulted) && old(host.clock) <= host.clock
      invariant through <= Directories(job)
      decreases |Directories(job) - through|
    {
      ghost var now, cur := host.clock, [];
      ok, stack, waiting, cur := CopyNext(host, stack, preserve, job, through, waiting);
      host.Wider(old(host.clock), now, host.clock);
      if !ok {
        TakenFor(job, host.fs);
        return;
      }
      EnteredAreDirectories(job, cur);
      assert Directories(job) - through == (Directories(job) - (through + {cur})) + {cur};
      through := through + {cur};
    }
    ok := true;
    BetweenFacts(job, host.fs, stack, waiting, through);
    forall p ensures Lookup(host.fs, p) == Overlay(job.t, srcRoot, dstRoot, preserve, p) {
      FinishedIsOverlay(job, host.fs, through, p);
    }
  }

  /** What the installation looks like once its directory exists. */
  ghost function Prepared(t: Tree, installDir: Path): Tree {
    WithDirs(t, installDir)
  }

  /** No file stands where the installation needs a directory, and nothing clashes below it. */
  ghost predicate Unobstructed(t: Tree, src: Path, dst: Path, preserve: seq<string>) {
    (forall q | q <= dst && q in t :: IsDir(t, q)) && IsDir(t, src) && NoClash(Prepared(t, dst), src, dst, preserve)
  }

  /** `copy_extracted_into_install`.  Whether it succeeds or stops half way, only the directories
      down to the installation and the positions the copy takes can differ, and nothing below an
      existing `config` or `data` does. */
  method CopyExtractedIntoInstall(host: Host, payloadRoot: Path, installDir: Path) returns (ok: bool)
    requires Shaped(host.fs) && Apart(host.fs, payloadRoot, installDir)
    modifies host
    ensures ok ==>
      forall p :: Lookup(host.fs, p) == Overlay(Prepared(old(host.fs), installDir), payloadRoot, installDir, ["config", "data"], p)
    ensures forall p | !(p <= installDir) ::
      !(installDir <= p && Copied(Prepared(old(host.fs), installDir), payloadRoot, installDir, ["config", "data"], p[|installDir|..]))
      ==> Lookup(host.fs, p) == old(Lookup(host.fs, p))
    ensures forall name, below | Preserved(old(host.fs), payloadRoot, installDir, ["config", "data"], name) ::
      Lookup(host.fs, installDir + [name] + below) == old(Lookup(host.fs, installDir + [name] + below))
    ensures (ok ==> host.faulted == old(host.faulted)) && host.Honest(old(host.clock), old(host.faulted))
    ensures Unobstructed(old(host.fs), payloadRoot, installDir, ["config", "data"]) && !host.faulted ==> ok
  {
    hide Preserved, Copied, Overlay, Shaped, NoClash, Apart;
    ghost var before := host.fs;
    var preserve := ["config", "data"];
    PreparedFacts(before, payloadRoot, installDir, preserve);
    ok := host.CreateDirAll(installDir);
    if !ok {
      return;
    }
    ok := CopyTree(host, payloadRoot, installDir, preserve);
    forall name, below | Preserved(before, payloadRoot, installDir, preserve, name)
      ensures Lookup(host.fs, installDir + [name] + below) == Lookup(before, installDir + [name] + below)
    {
      NotCopiedBelow(before, payloadRoot, installDir, preserve, name, below);
    }
  }

  lemma {:induction false} PreparedAt(t: Tree, p: Path, q: Path)
    ensures !(q <= p) ==> Lookup(WithDirs(t, p), q) == Lookup(t, q)
    ensures IsDir(t, []) ==> IsDir(WithDirs(t, p), p)
    ensures IsDir(t, q) ==> IsDir(WithDirs(t, p), q)
    decreases |p|
  {
    if p != [] {
      assert Parent(p) <= p;
      PreparedAt(t, Parent(p), q);
    }
  }

  lemma PreparedFacts(t: Tree, src: Path, dst: Path, preserve: seq<string>)
    requires Shaped(t) && Apart(t, src, dst)
    ensures Apart(Prepared(t, dst), src, dst) && IsDir(Prepared(t, dst), dst)
    ensures IsDir(t, src) ==> IsDir(Prepared(t, dst), src)
    ensures forall q | !(q <= dst) :: Lookup(Prepared(t, dst), q) == Lookup(t, q)
    ensures forall name | Preserved(t, src, dst, preserve, name) :: Prepared(t, dst) == t
  {
    forall q
      ensures !(q <= dst) ==> Lookup(Prepared(t, dst), q) == Lookup(t, q)
    {
      PreparedAt(t, dst, q);
    }
    PreparedAt(t, dst, src);
    if dst <= src {
      var q := src + src[|dst|..];
      assert |q| > |dst| && !(q <= dst);
      assert Lookup(Prepared(t, dst), q) == Lookup(t, q);
    }
    forall name | Preserved(t, src, dst, preserve, name) ensures Prepared(t, dst) == t {
      assert Parent(dst + [name]) == dst;
      WithDirsOnDir(t, dst);
    }
  }

  /** Below a preserved directory the copy takes nothing. */
  lemma NotCopiedBelow(t: Tree, src: Path, dst: Path, preserve: seq<string>, name: string, below: Path)
    requires Preserved(t, src, dst, preserve, name)
    ensures var p := dst + [name] + below; dst <= p && !Copied(t, src, dst, preserve, p[|dst|..])
  {
    assert (dst + [name] + below)[|dst|..] == [name] + below;
  }
}
