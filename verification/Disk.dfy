/**
 A file system whose every operation may fail, and which remembers every state it went
 through, so that a crash after any of them can be talked about.
 */
module DiskModel {
  import opened Common
  import opened JsonModel

  /** A regular file: its directory and its name. */
  datatype Path = Path(dir: seq<string>, name: string)

  /** A complete JSON document, or anything else, a half-written one included. */
  datatype Content = Document(v: Json) | Garbage

  type Files = map<Path, Content>

  /** Moving a file over another. */
  function Renamed(files: Files, src: Path, dst: Path): Files
    requires src in files
  {
    (files - {src})[dst := files[src]]
  }

  class Disk {
    var files: Files
    /** How many operations were tried; it indexes the oracles. */
    var clock: nat
    /** Which operations fail. */
    const fails: nat -> bool
    /** Which failing writes leave a torn file behind. */
    const tears: nat -> bool
    /** The wall clock, read when a sibling is named. */
    const nanos: nat -> nat
    /** Modification times, as read at some point. */
    const modified: (nat, Path) -> nat
    /** An operation that was to undo something has failed. */
    ghost var undoFailed: bool
    /** Every state the disk was in, the current one last. */
    ghost var trace: seq<Files>

    ghost predicate Valid()
      reads this
    {
      trace != [] && trace[|trace| - 1] == files
    }

    constructor (files: Files, fails: nat -> bool, tears: nat -> bool, nanos: nat -> nat, modified: (nat, Path) -> nat)
      ensures Valid() && this.files == files && trace == [files] && !undoFailed && clock == 0
      ensures this.fails == fails && this.tears == tears && this.nanos == nanos && this.modified == modified
    {
      this.files, this.clock := files, 0;
      this.fails, this.tears, this.nanos, this.modified := fails, tears, nanos, modified;
      this.undoFailed, this.trace := false, [files];
    }

    /** No operation tried between these two moments fails. */
    ghost predicate NoFault(start: nat, end: nat) {
      forall i | start <= i < end :: !fails(i)
    }

    /** At least two operations tried between these moments fail. */
    ghost predicate TwoFaults(start: nat, end: nat) {
      exists i, j | start <= i < j < end :: fails(i) && fails(j)
    }

    lemma FaultsAddUp(start: nat, mid: nat, end: nat)
      requires start <= mid <= end
      ensures NoFault(start, end) <==> NoFault(start, mid) && NoFault(mid, end)
      ensures TwoFaults(start, mid) || TwoFaults(mid, end) ==> TwoFaults(start, end)
      ensures !NoFault(start, mid) && !NoFault(mid, end) ==> TwoFaults(start, end)
    {
    }

    /** Whether the next operation succeeds. */
    method Attempt(ghost undoing: bool) returns (ok: bool)
      modifies this`clock, this`undoFailed
      ensures ok == !fails(old(clock)) && clock == old(clock) + 1
      ensures undoFailed == (old(undoFailed) || (undoing && !ok))
    {
      ok := !fails(clock);
      clock := clock + 1;
      undoFailed := undoFailed || (undoing && !ok);
    }

    /** `create_dir_all`; directories are not part of the model. */
    method CreateDirs(ghost undoing: bool) returns (ok: bool)
      modifies this`clock, this`undoFailed
      ensures ok == !fails(old(clock)) && clock == old(clock) + 1
      ensures undoFailed == (old(undoFailed) || (undoing && !ok))
    {
      ok := Attempt(undoing);
    }

    /** `fs::write`: the file is torn before it is whole. */
    method Write(p: Path, v: Json) returns (ok: bool)
      requires Valid()
      modifies this
      ensures Valid() && undoFailed == old(undoFailed)
      ensures ok == !fails(old(clock)) && clock == old(clock) + 1
      ensures ok ==> files == old(files)[p := Document(v)]
      ensures ok ==> trace == old(trace) + [old(files)[p := Garbage], files]
      ensures !ok ==> files == if tears(old(clock)) then old(files)[p := Garbage] else old(files)
      ensures !ok ==> trace == if tears(old(clock)) then old(trace) + [files] else old(trace)
    {
      var torn := tears(clock);
      ok := Attempt(false);
      if ok || torn {
        files := files[p := Garbage];
        trace := trace + [files];
      }
      if ok {
        files := files[p := Document(v)];
        trace := trace + [files];
        assert files == old(files)[p := Document(v)];
      }
    }

    /** `fs::rename`: atomic, it happens or it does not. */
    method Rename(src: Path, dst: Path, ghost undoing: bool) returns (ok: bool)
      requires Valid() && src in files
      modifies this
      ensures Valid() && undoFailed == (old(undoFailed) || (undoing && !ok))
      ensures ok == !fails(old(clock)) && clock == old(clock) + 1
      ensures ok ==> files == Renamed(old(files), src, dst) && trace == old(trace) + [files]
      ensures !ok ==> files == old(files) && trace == old(trace)
    {
      ok := Attempt(undoing);
      if ok {
        files := Renamed(files, src, dst);
        trace := trace + [files];
      }
    }

    /** `fs::remove_file`: it fails on a missing file, which is no fault of the disk. */
    method Remove(p: Path, ghost undoing: bool) returns (ok: bool)
      requires Valid()
      modifies this
      ensures Valid()
      ensures ok == (p in old(files) && !fails(old(clock))) && clock == old(clock) + 1
      ensures ok ==> files == old(files) - {p}
      ensures p in old(files) ==> undoFailed == (old(undoFailed) || (undoing && !ok))
      ensures p !in old(files) ==> !ok && undoFailed == old(undoFailed)
      ensures ok ==> trace == old(trace) + [files]
      ensures !ok ==> files == old(files) && trace == old(trace)
    {
      if p !in files {
        clock := clock + 1;
        return false;
      }
      ok := Attempt(undoing);
      if ok {
        files := files - {p};
        trace := trace + [files];
      }
    }

    /** `fs::copy`: like a write, torn before it is whole; copying a file to itself truncates it. */
    method Copy(src: Path, dst: Path, ghost undoing: bool) returns (ok: bool)
      requires Valid() && src in files
      modifies this
      ensures Valid() && undoFailed == (old(undoFailed) || (undoing && !ok))
      ensures ok == !fails(old(clock)) && clock == old(clock) + 1
      ensures ok && src != dst ==> files == old(files)[dst := old(files)[src]]
      ensures !ok ==> files == if tears(old(clock)) then old(files)[dst := Garbage] else old(files)
      ensures old(trace) <= trace
      ensures forall p | p != dst :: Lookup(files, p) == old(Lookup(files, p))
    {
      var torn := tears(clock);
      var whole := if src == dst then Garbage else files[src];
      ok := Attempt(undoing);
      if ok || torn {
        files := files[dst := Garbage];
        trace := trace + [files];
      }
      if ok {
        files := files[dst := whole];
        trace := trace + [files];
        assert files == old(files)[dst := whole];
      }
    }
  }
}
