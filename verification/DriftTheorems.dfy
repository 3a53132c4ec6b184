/** What the entry lists of a comparison mean to whoever reads them. */
module DriftTheorems {
  import opened Common
  import opened JsonModel
  import opened DriftDiff

  // ---------------------------------------------------------------- coverage

  /** Every conflict has a topmost conflict at or above it. */
  lemma {:induction false} TopmostAbove(ctx: Context, base: Path, e: Json, a: Json, p: Path) returns (n: nat)
    requires Conflict(ctx, base, e, a, p)
    ensures n <= |p| && Topmost(ctx, base, e, a, p[..n])
    decreases |p|
  {
    if m: nat :| m < |p| && Conflict(ctx, base, e, a, p[..m]) {
      n := TopmostAbove(ctx, base, e, a, p[..m]);
      assert p[..m][..n] == p[..n];
    } else {
      n := |p|;
      assert p[..n] == p;
    }
  }

  /** Two comparable topmost conflicts are the same. */
  lemma TopmostUnique(ctx: Context, base: Path, e: Json, a: Json, p: Path, q: Path)
    requires Topmost(ctx, base, e, a, p) && Topmost(ctx, base, e, a, q) && p <= q
    ensures p == q
  {
    assert q[..|p|] == p;
    TopmostShort(ctx, base, e, a, q, |p|);
  }

  /** An entry of a whole comparison, restated without the empty base. */
  lemma RootEntry(ctx: Context, e: Json, a: Json, d: DriftEntry)
    ensures IsEntry(ctx, [], e, a, d)
        <==> Topmost(ctx, [], e, a, d.at) && d == DriftEntry(ctx.file, d.at, OrNull(At(a, d.at)), OrNull(At(e, d.at)))
    ensures AddedSide([], e, d) <==> At(e, d.at).None?
  {
    assert d.at[0..] == d.at;
    assert [] + d.at == d.at;
  }

  /** No position repeats, and none lies above another. */
  lemma EntriesFormAntichain(ctx: Context, e: Json, a: Json, added: seq<DriftEntry>, modified: seq<DriftEntry>)
    requires Exact(ctx, [], e, a, added, modified)
    ensures forall x, y | x in added + modified && y in added + modified && x.at <= y.at :: x == y
    ensures NoRepeat(added + modified)
  {
    var all := added + modified;
    forall x, y | x in all && y in all && x.at <= y.at ensures x == y {
      RootEntry(ctx, e, a, x);
      RootEntry(ctx, e, a, y);
      TopmostUnique(ctx, [], e, a, x.at, y.at);
    }
    forall i, j | 0 <= i < j < |all| ensures all[i].at != all[j].at {
      if i < |added| && j >= |added| {
        assert all[i] in added && all[j] in modified;
        assert AddedSide([], e, all[i]) && !AddedSide([], e, all[j]);
      } else if i >= |added| {
        assert all[i] == modified[i - |added|] && all[j] == modified[j - |added|];
      }
    }
  }

  /** Every differing position lies at or below an entry, and by the antichain below only one. */
  lemma ConflictHasOneEntry(ctx: Context, e: Json, a: Json, added: seq<DriftEntry>, modified: seq<DriftEntry>, p: Path)
    requires Exact(ctx, [], e, a, added, modified) && Conflict(ctx, [], e, a, p)
    ensures exists d :: d in added + modified && d.at <= p && forall x | x in added + modified && x.at <= p :: x == d
  {
    var n := TopmostAbove(ctx, [], e, a, p);
    var d := EntryAt(ctx, [], e, a, p[..n]);
    assert d.at == p[..n];
    RootEntry(ctx, e, a, d);
    assert d in added + modified;
    EntriesFormAntichain(ctx, e, a, added, modified);
    forall x | x in added + modified && x.at <= p ensures x == d {
      assert x.at <= d.at || d.at <= x.at;
    }
  }

  /** An entry is a real difference and carries both sides' values there, Null for absent. */
  lemma EntryCarriesValues(ctx: Context, e: Json, a: Json, added: seq<DriftEntry>, modified: seq<DriftEntry>, d: DriftEntry)
    requires Exact(ctx, [], e, a, added, modified) && d in added + modified
    ensures Conflict(ctx, [], e, a, d.at)
    ensures d.external == OrNull(At(a, d.at)) && d.internal == OrNull(At(e, d.at))
    ensures d in added <==> At(e, d.at).None? && At(a, d.at).Some?
    ensures d in modified <==> At(e, d.at).Some?
  {
    RootEntry(ctx, e, a, d);
  }

  // ---------------------------------------------------------------- a clean report

  /** Same shape and keys, equal leaves, except trivially empty pairs on the allow-list. */
  predicate Alike(ctx: Context, at: Path, e: Json, a: Json)
    decreases e
  {
    match (e, a)
    case (Obj(exp), Obj(act)) =>
      exp.Keys == act.Keys && forall k | k in exp :: Alike(ctx, at + [Key(k)], exp[k], act[k])
    case (Arr(exp), Arr(act)) =>
      |exp| == |act| && forall i: nat | i < |exp| :: Alike(ctx, at + [Index(i)], exp[i], act[i])
    case _ => e == a || EmptyEquivalenceAllowed(ctx, Dotted(at), e, a)
  }

  ghost predicate NoConflict(ctx: Context, at: Path, e: Json, a: Json) {
    forall p: Path :: !Conflict(ctx, at, e, a, p)
  }

  lemma NoConflictChild(ctx: Context, at: Path, e: Json, a: Json, s: Segment)
    requires NoConflict(ctx, at, e, a) && At(e, [s]).Some? && At(a, [s]).Some?
    ensures NoConflict(ctx, at + [s], At(e, [s]).value, At(a, [s]).value)
  {
    forall p: Path ensures !Conflict(ctx, at + [s], At(e, [s]).value, At(a, [s]).value, p) {
      ConflictStep(ctx, at, e, a, s, p);
    }
  }

  lemma {:induction false} NoConflictAlike(ctx: Context, at: Path, e: Json, a: Json)
    requires NoConflict(ctx, at, e, a)
    ensures Alike(ctx, at, e, a)
    decreases e
  {
    assert !Conflict(ctx, at, e, a, []) && at + [] == at;
    match (e, a) {
      case (Obj(exp), Obj(act)) =>
        forall k ensures k in exp <==> k in act {
          assert !Conflict(ctx, at, e, a, [Key(k)]);
          assert At(e, [Key(k)]).Some? <==> k in exp;
          assert At(a, [Key(k)]).Some? <==> k in act;
        }
        forall k | k in exp ensures Alike(ctx, at + [Key(k)], exp[k], act[k]) {
          NoConflictChild(ctx, at, e, a, Key(k));
          NoConflictAlike(ctx, at + [Key(k)], exp[k], act[k]);
        }
      case (Arr(exp), Arr(act)) =>
        assert !Conflict(ctx, at, e, a, [Index(|exp|)]) && !Conflict(ctx, at, e, a, [Index(|act|)]);
        assert At(e, [Index(|exp|)]).None? && At(a, [Index(|act|)]).None?;
        assert At(a, [Index(|exp|)]).Some? <==> |exp| < |act|;
        assert At(e, [Index(|act|)]).Some? <==> |act| < |exp|;
        forall i: nat | i < |exp| ensures Alike(ctx, at + [Index(i)], exp[i], act[i]) {
          NoConflictChild(ctx, at, e, a, Index(i));
          NoConflictAlike(ctx, at + [Index(i)], exp[i], act[i]);
        }
      case _ =>
    }
  }

  lemma AbsentBelow(ctx: Context, at: Path, e: Json, a: Json, p: Path)
    requires At(e, p).None? && At(a, p).None?
    ensures !Conflict(ctx, at, e, a, p)
  {
  }

  lemma {:induction false} AlikeNoConflict(ctx: Context, at: Path, e: Json, a: Json, p: Path)
    requires Alike(ctx, at, e, a)
    ensures !Conflict(ctx, at, e, a, p)
    decreases |p|
  {
    hide EmptyEquivalenceAllowed, Dotted;
    if p == [] {
      assert at + [] == at;
    } else if !SameContainer(e, a) {
      assert at + [] == at;
      AgreeingLeaves(ctx, at, e, a, p);
    } else {
      var s, rest := p[0], p[1..];
      assert p == [s] + rest;
      AtStep(e, s, rest);
      AtStep(a, s, rest);
      if At(e, [s]).Some? && At(a, [s]).Some? {
        ConflictStep(ctx, at, e, a, s, rest);
        AlikeNoConflict(ctx, at + [s], At(e, [s]).value, At(a, [s]).value, rest);
      } else {
        AbsentBelow(ctx, at, e, a, p);
      }
    }
  }

  /** The report is clean exactly when the documents are alike. */
  lemma CleanIffAlike(ctx: Context, e: Json, a: Json, added: seq<DriftEntry>, modified: seq<DriftEntry>)
    requires Exact(ctx, [], e, a, added, modified)
    ensures added == [] && modified == [] <==> Alike(ctx, [], e, a)
  {
    if added == [] && modified == [] {
      forall p: Path ensures !Conflict(ctx, [], e, a, p) {
        if Conflict(ctx, [], e, a, p) {
          ConflictHasOneEntry(ctx, e, a, added, modified, p);
        }
      }
      NoConflictAlike(ctx, [], e, a);
    }
    if Alike(ctx, [], e, a) {
      forall d ensures d !in added + modified {
        AlikeNoConflict(ctx, [], e, a, d.at);
        if d in added + modified {
          EntryCarriesValues(ctx, e, a, added, modified, d);
        }
      }
      EmptyIfNothingIn(added + modified);
    }
  }

  lemma EmptyIfNothingIn(ds: seq<DriftEntry>)
    requires forall d :: d !in ds
    ensures ds == []
  {
    if ds != [] {
      HasMember(ds);
    }
  }

  lemma HasMember<T>(xs: seq<T>)
    requires xs != []
    ensures exists x :: x in xs
  {
    assert xs[0] in xs;
  }

  /** No rule of the allow-list is about this file. */
  predicate NoRuleForFile(ctx: Context) {
    forall r | r in ctx.rules :: r.backend != ctx.backend || !WildcardMatch(r.file, ctx.file)
  }

  lemma {:induction false} AlikeReflexive(ctx: Context, at: Path, e: Json)
    ensures Alike(ctx, at, e, e)
    decreases e
  {
    match e {
      case Obj(m) =>
        forall k | k in m ensures Alike(ctx, at + [Key(k)], m[k], m[k]) {
          AlikeReflexive(ctx, at + [Key(k)], m[k]);
        }
      case Arr(xs) =>
        forall i: nat | i < |xs| ensures Alike(ctx, at + [Index(i)], xs[i], xs[i]) {
          AlikeReflexive(ctx, at + [Index(i)], xs[i]);
        }
      case _ =>
    }
  }

  lemma {:induction false} AlikeEqual(ctx: Context, at: Path, e: Json, a: Json)
    requires NoRuleForFile(ctx) && Alike(ctx, at, e, a)
    ensures e == a
    decreases e
  {
    match (e, a) {
      case (Obj(exp), Obj(act)) =>
        forall k | k in exp ensures exp[k] == act[k] {
          AlikeEqual(ctx, at + [Key(k)], exp[k], act[k]);
        }
        assert exp == act;
      case (Arr(exp), Arr(act)) =>
        forall i: nat | i < |exp| ensures exp[i] == act[i] {
          AlikeEqual(ctx, at + [Index(i)], exp[i], act[i]);
        }
        assert exp == act;
      case _ =>
    }
  }

  /** For a file no rule names, a clean report is plain equality. */
  lemma CleanIffEqual(ctx: Context, e: Json, a: Json, added: seq<DriftEntry>, modified: seq<DriftEntry>)
    requires Exact(ctx, [], e, a, added, modified) && NoRuleForFile(ctx)
    ensures added == [] && modified == [] <==> e == a
  {
    CleanIffAlike(ctx, e, a, added, modified);
    if Alike(ctx, [], e, a) {
      AlikeEqual(ctx, [], e, a);
    }
    AlikeReflexive(ctx, [], e);
  }

  // ---------------------------------------------------------------- dotted strings

  predicate CleanText(s: string) {
    s != "" && '.' !in s
  }

  /** Every key on the path is non-empty and free of dots. */
  predicate CleanPath(p: Path) {
    forall i | 0 <= i < |p| :: CleanText(SegmentText(p[i]))
  }

  lemma {:induction false} SplitClean(s: string)
    requires '.' !in s
    ensures SplitDots(s) == [s]
  {
    if s != "" {
      SplitClean(s[1..]);
      assert s == [s[0]] + s[1..];
    }
  }

  lemma {:induction false} SplitAppend(s: string, t: string)
    requires '.' !in t
    ensures SplitDots(s + "." + t) == SplitDots(s) + [t]
  {
    if s == "" {
      assert s + "." + t == "." + t;
      assert (("." + t)[1..]) == t;
      SplitClean(t);
    } else {
      assert (s + "." + t)[1..] == s[1..] + "." + t;
      SplitAppend(s[1..], t);
    }
  }

  /** Splitting the dotted string gives the segments back. */
  lemma {:induction false} SplitDotted(p: Path)
    requires CleanPath(p) && p != []
    ensures Dotted(p) != ""
    ensures SplitDots(Dotted(p)) == seq(|p|, i requires 0 <= i < |p| => SegmentText(p[i]))
  {
    var q, t := p[..|p| - 1], SegmentText(p[|p| - 1]);
    if q == [] {
      SplitClean(t);
    } else {
      SplitDotted(q);
      SplitAppend(Dotted(q), t);
    }
  }

  /** The segments of two topmost conflicts that first part at `n` are of the same kind there. */
  lemma {:induction false} SameKindWhereTheyPart(ctx: Context, base: Path, e: Json, a: Json, p: Path, q: Path, n: nat)
    requires Topmost(ctx, base, e, a, p) && Topmost(ctx, base, e, a, q)
    requires n < |p| && n < |q| && p[..n] == q[..n]
    ensures p[n].Key? == q[n].Key?
    decreases n
  {
    assert !Conflict(ctx, base, e, a, p[..0]) && p[..0] == [];
    var s, t := p[0], q[0];
    assert p == [s] + p[1..] && q == [t] + q[1..];
    AtStep(e, s, p[1..]);
    AtStep(a, s, p[1..]);
    AtStep(e, t, q[1..]);
    AtStep(a, t, q[1..]);
    if n > 0 {
      assert s == p[..n][0] == t;
      assert p[..1] == [s];
      assert |p| > 1 ==> !Conflict(ctx, base, e, a, p[..1]);
      TopmostStep(ctx, base, e, a, s, p[1..]);
      TopmostStep(ctx, base, e, a, s, q[1..]);
      assert p[1..][..n - 1] == p[..n][1..] && q[1..][..n - 1] == q[..n][1..];
      SameKindWhereTheyPart(ctx, base + [s], At(e, [s]).value, At(a, [s]).value, p[1..], q[1..], n - 1);
    }
  }

  /** With clean keys the dotted strings identify entries: different entries, different strings. */
  lemma DottedPathsDistinct(ctx: Context, e: Json, a: Json, added: seq<DriftEntry>, modified: seq<DriftEntry>)
    requires Exact(ctx, [], e, a, added, modified)
    requires forall d | d in added + modified :: CleanPath(d.at)
    ensures forall x, y | x in added + modified && y in added + modified && Dotted(x.at) == Dotted(y.at) :: x == y
  {
    forall x, y | x in added + modified && y in added + modified && Dotted(x.at) == Dotted(y.at) ensures x == y {
      RootEntry(ctx, e, a, x);
      RootEntry(ctx, e, a, y);
      DottedInjective(ctx, e, a, x.at, y.at);
    }
  }

  lemma DottedInjective(ctx: Context, e: Json, a: Json, p: Path, q: Path)
    requires Topmost(ctx, [], e, a, p) && Topmost(ctx, [], e, a, q)
    requires CleanPath(p) && CleanPath(q) && Dotted(p) == Dotted(q)
    ensures p == q
  {
    if p != [] {
      SplitDotted(p);
    }
    if q != [] {
      SplitDotted(q);
    }
    if p != [] {
      var xs := SplitDots(Dotted(p));
      assert |p| == |xs| == |q|;
      forall i | 0 <= i < |p| ensures SegmentText(p[i]) == xs[i] == SegmentText(q[i]) {
      }
      SameTextsSamePath(ctx, e, a, p, q, xs, |p|);
      assert p[..|p|] == p && q[..|q|] == q;
    }
  }

  lemma {:induction false} SameTextsSamePath(ctx: Context, e: Json, a: Json, p: Path, q: Path, xs: seq<string>, n: nat)
    requires Topmost(ctx, [], e, a, p) && Topmost(ctx, [], e, a, q)
    requires |p| == |q| == |xs| && n <= |p|
    requires forall i | 0 <= i < |p| :: SegmentText(p[i]) == xs[i] == SegmentText(q[i])
    ensures p[..n] == q[..n]
  {
    hide Topmost, Decimal;
    if n > 0 {
      var m := n - 1;
      SameTextsSamePath(ctx, e, a, p, q, xs, m);
      SameKindWhereTheyPart(ctx, [], e, a, p, q, m);
      if p[m].Index? {
        DecimalInjective(p[m].pos, q[m].pos);
      }
      assert SegmentText(p[m]) == SegmentText(q[m]);
      assert p[..n] == p[..m] + [p[m]] && q[..n] == q[..m] + [q[m]];
    }
  }

  /** Without clean keys they do not: a dotted key and a nested key share one string. */
  lemma DottedPathsCanCollide(ctx: Context)
    ensures
      var e := Obj(map["a" := Obj(map[]), "a.b" := Null]);
      var a := Obj(map["a" := Obj(map["b" := Null])]);
      var p: Path := [Key("a"), Key("b")];
      var q: Path := [Key("a.b")];
      p != q && Topmost(ctx, [], e, a, p) && Topmost(ctx, [], e, a, q) && Dotted(p) == Dotted(q)
  {
    var e := Obj(map["a" := Obj(map[]), "a.b" := Null]);
    var a := Obj(map["a" := Obj(map["b" := Null])]);
    var p: Path := [Key("a"), Key("b")];
    var q: Path := [Key("a.b")];
    assert p[..1] == [Key("a")] && p[1..] == [Key("b")] && q[..0] == [] && p[..0] == [];
    assert At(e, p) == At(Obj(map[]), [Key("b")]);
    assert At(a, p) == At(Obj(map["b" := Null]), [Key("b")]);
    assert At(e, [Key("a")]) == Some(Obj(map[])) && At(a, [Key("a")]) == Some(Obj(map["b" := Null]));
    assert Dotted([Key("a")]) == "a";
  }
}
