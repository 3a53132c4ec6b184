/**
 The structural comparison of a rendered configuration with the file on disk.

 `DiffJson` walks both documents and collects entries.  Its specification is not a second
 walk: a position is in conflict when the two documents, looked up there independently,
 disagree, and the entries are exactly the topmost conflicts.
 */
module DriftDiff {
  import opened Common
  import opened JsonModel
  import opened BotConfigModel

  datatype EmptyRule = EmptyRule(backend: Backend, file: string, path: string)

  /** What the comparison knows about the file: its backend, its base name, the allow-list in force. */
  datatype Context = Context(backend: Backend, file: string, rules: seq<EmptyRule>)

  datatype Segment = Key(name: string) | Index(pos: nat)

  type Path = seq<Segment>

  /** `path` is kept as segments; the dotted string of the source is `Dotted(at)`. */
  datatype DriftEntry = DriftEntry(file: string, at: Path, external: Json, internal: Json)

  // ---------------------------------------------------------------- dotted paths

  function SegmentText(s: Segment): string {
    match s
    case Key(name) => name
    case Index(pos) => Decimal(pos)
  }

  /** `jp`: an empty prefix is dropped, whatever key it stood for. */
  function JoinPath(prefix: string, key: string): string {
    if prefix == "" then key else prefix + "." + key
  }

  function Dotted(p: Path): string {
    if p == [] then "" else JoinPath(Dotted(p[..|p| - 1]), SegmentText(p[|p| - 1]))
  }

  /** `split('.')`. */
  function SplitDots(s: string): (parts: seq<string>)
    ensures |parts| >= 1
  {
    if s == "" then [""]
    else
      var rest := SplitDots(s[1..]);
      if s[0] == '.' then [""] + rest else [[s[0]] + rest[0]] + rest[1..]
  }

  // ---------------------------------------------------------------- the allow-list

  const EMPTY_EQUIVALENCE_RULES: seq<EmptyRule> := [
    EmptyRule(NapCat, "onebot11_*.json", "musicSignUrl"),
    EmptyRule(NapCat, "onebot11_*.json", "network.httpServers.*.token"),
    EmptyRule(NapCat, "onebot11_*.json", "network.httpSseServers.*.token"),
    EmptyRule(NapCat, "onebot11_*.json", "network.httpClients.*.token"),
    EmptyRule(NapCat, "onebot11_*.json", "network.httpClients.*.url"),
    EmptyRule(NapCat, "onebot11_*.json", "network.websocketServers.*.token"),
    EmptyRule(NapCat, "onebot11_*.json", "network.websocketClients.*.token"),
    EmptyRule(NapCat, "onebot11_*.json", "network.websocketClients.*.url"),
    EmptyRule(SnowLuma, "onebot_*.json", "musicSignUrl"),
    EmptyRule(SnowLuma, "onebot_*.json", "statusCommand"),
    EmptyRule(SnowLuma, "onebot_*.json", "networks.httpServers.*.accessToken"),
    EmptyRule(SnowLuma, "onebot_*.json", "networks.httpClients.*.accessToken"),
    EmptyRule(SnowLuma, "onebot_*.json", "networks.httpClients.*.url"),
    EmptyRule(SnowLuma, "onebot_*.json", "networks.wsServers.*.accessToken"),
    EmptyRule(SnowLuma, "onebot_*.json", "networks.wsClients.*.accessToken"),
    EmptyRule(SnowLuma, "onebot_*.json", "networks.wsClients.*.url")]

  /** The context `detect_drift` compares a file in. */
  function FileContext(backend: Backend, file: string): Context {
    Context(backend, file, EMPTY_EQUIVALENCE_RULES)
  }

  /** `split_once('*')`: text before and after the first star. */
  function SplitOnceStar(s: string): Option<(string, string)> {
    if s == "" then None
    else if s[0] == '*' then Some(("", s[1..]))
    else
      match SplitOnceStar(s[1..])
      case None => None
      case Some((before, after)) => Some(([s[0]] + before, after))
  }

  predicate WildcardMatch(pattern: string, value: string) {
    match SplitOnceStar(pattern)
    case Some((prefix, suffix)) => StartsWith(value, prefix) && EndsWith(value, suffix)
    case None => pattern == value
  }

  predicate PathMatch(pattern: string, path: string) {
    var ps, ss := SplitDots(pattern), SplitDots(path);
    |ps| == |ss| && forall i | 0 <= i < |ps| :: ps[i] == "*" || ps[i] == ss[i]
  }

  predicate TriviallyEmpty(v: Json) {
    match v
    case Null => true
    case Arr(items) => items == []
    case Str(s) => s == ""
    case Obj(fields) => fields == map[]
    case _ => false
  }

  predicate RuleFor(ctx: Context, path: string) {
    exists r | r in ctx.rules ::
      r.backend == ctx.backend && WildcardMatch(r.file, ctx.file) && PathMatch(r.path, path)
  }

  predicate EmptyEquivalenceAllowed(ctx: Context, path: string, expected: Json, actual: Json) {
    TriviallyEmpty(expected) && TriviallyEmpty(actual) && RuleFor(ctx, path)
  }

  // ---------------------------------------------------------------- positions and conflicts

  /** The value of a document at a position, if the position exists. */
  function At(v: Json, p: Path): Option<Json> {
    if p == [] then Some(v)
    else
      match (v, p[0])
      case (Obj(m), Key(k)) => if k in m then At(m[k], p[1..]) else None
      case (Arr(xs), Index(i)) => if i < |xs| then At(xs[i], p[1..]) else None
      case _ => None
  }

  /** Two present nodes agree: the same kind of container, or leaves that count as equal. */
  predicate SameNode(ctx: Context, at: Path, x: Json, y: Json) {
    (x.Obj? && y.Obj?) || (x.Arr? && y.Arr?) || x == y || EmptyEquivalenceAllowed(ctx, Dotted(at), x, y)
  }

  /** The documents disagree at `p`, a position below the common position `base`. */
  predicate Conflict(ctx: Context, base: Path, e: Json, a: Json, p: Path) {
    match (At(e, p), At(a, p))
    case (None, None) => false
    case (Some(x), Some(y)) => !SameNode(ctx, base + p, x, y)
    case _ => true
  }

  /** A conflict with no conflict above it. */
  ghost predicate Topmost(ctx: Context, base: Path, e: Json, a: Json, p: Path) {
    Conflict(ctx, base, e, a, p) && forall n | 0 <= n < |p| :: !Conflict(ctx, base, e, a, p[..n])
  }

  function OrNull(v: Option<Json>): Json {
    match v case Some(x) => x case None => Null
  }

  /** The entry a position deserves: both sides' values there, Null standing for absent. */
  function EntryAt(ctx: Context, base: Path, e: Json, a: Json, p: Path): DriftEntry {
    DriftEntry(ctx.file, base + p, OrNull(At(a, p)), OrNull(At(e, p)))
  }

  ghost predicate IsEntry(ctx: Context, base: Path, e: Json, a: Json, d: DriftEntry) {
    base <= d.at
    && var p := d.at[|base|..];
       Topmost(ctx, base, e, a, p) && d == EntryAt(ctx, base, e, a, p)
  }

  /** The entry is about something only the file on disk has. */
  predicate AddedSide(base: Path, e: Json, d: DriftEntry) {
    base <= d.at && At(e, d.at[|base|..]).None?
  }

  predicate NoRepeat(ds: seq<DriftEntry>) {
    forall i, j | 0 <= i < j < |ds| :: ds[i].at != ds[j].at
  }

  /** Restriction of the specification to positions whose first segment is in `done`. */
  ghost predicate ExactOn(ctx: Context, base: Path, e: Json, a: Json, done: set<Segment>,
                          added: seq<DriftEntry>, modified: seq<DriftEntry>)
  {
    && (forall d :: d in added <==> IsEntry(ctx, base, e, a, d) && AddedSide(base, e, d) && Within(base, done, d))
    && (forall d :: d in modified <==> IsEntry(ctx, base, e, a, d) && !AddedSide(base, e, d) && Within(base, done, d))
    && NoRepeat(added) && NoRepeat(modified)
  }

  predicate Within(base: Path, done: set<Segment>, d: DriftEntry) {
    |base| < |d.at| && d.at[|base|] in done
  }

  /** The lists hold exactly the topmost conflicts, each once, on the right side. */
  ghost predicate Exact(ctx: Context, base: Path, e: Json, a: Json, added: seq<DriftEntry>, modified: seq<DriftEntry>) {
    && (forall d :: d in added <==> IsEntry(ctx, base, e, a, d) && AddedSide(base, e, d))
    && (forall d :: d in modified <==> IsEntry(ctx, base, e, a, d) && !AddedSide(base, e, d))
    && NoRepeat(added) && NoRepeat(modified)
  }

  // ---------------------------------------------------------------- the walk

  predicate SameContainer(e: Json, a: Json) {
    (e.Obj? && a.Obj?) || (e.Arr? && a.Arr?)
  }

  /** Looking up a position one segment further down. */
  lemma AtStep(v: Json, s: Segment, p: Path)
    ensures At(v, [s] + p) == match At(v, [s]) case Some(w) => At(w, p) case None => None
  {
    assert ([s] + p)[1..] == p;
    assert [s][1..] == [];
  }

  lemma ConflictStep(ctx: Context, base: Path, e: Json, a: Json, s: Segment, p: Path)
    requires At(e, [s]).Some? && At(a, [s]).Some?
    ensures Conflict(ctx, base, e, a, [s] + p)
        <==> Conflict(ctx, base + [s], At(e, [s]).value, At(a, [s]).value, p)
  {
    AtStep(e, s, p);
    AtStep(a, s, p);
    assert base + ([s] + p) == base + [s] + p;
  }

  /** Below a shared container, the topmost conflicts through `s` are those of the child. */
  lemma TopmostStep(ctx: Context, base: Path, e: Json, a: Json, s: Segment, p: Path)
    requires SameContainer(e, a) && At(e, [s]).Some? && At(a, [s]).Some?
    ensures Topmost(ctx, base, e, a, [s] + p)
        <==> Topmost(ctx, base + [s], At(e, [s]).value, At(a, [s]).value, p)
  {
    var q := [s] + p;
    var e', a' := At(e, [s]).value, At(a, [s]).value;
    ConflictStep(ctx, base, e, a, s, p);
    assert q[..0] == [];
    assert !Conflict(ctx, base, e, a, []);
    forall n | 0 <= n < |p|
      ensures Conflict(ctx, base, e, a, q[..n + 1]) <==> Conflict(ctx, base + [s], e', a', p[..n])
    {
      assert q[..n + 1] == [s] + p[..n];
      ConflictStep(ctx, base, e, a, s, p[..n]);
    }
    if Topmost(ctx, base, e, a, q) {
      forall n | 0 <= n < |p| ensures !Conflict(ctx, base + [s], e', a', p[..n]) {
        assert !Conflict(ctx, base, e, a, q[..n + 1]);
      }
    }
    if Topmost(ctx, base + [s], e', a', p) {
      forall n | 0 <= n < |q| ensures !Conflict(ctx, base, e, a, q[..n]) {
        if n > 0 {
          assert !Conflict(ctx, base + [s], e', a', p[..n - 1]);
        }
      }
    }
  }

  /** Entries through a shared child are the child's entries. */
  lemma EntryStep(ctx: Context, base: Path, e: Json, a: Json, s: Segment, d: DriftEntry)
    requires SameContainer(e, a) && At(e, [s]).Some? && At(a, [s]).Some?
    ensures IsEntry(ctx, base + [s], At(e, [s]).value, At(a, [s]).value, d)
        <==> IsEntry(ctx, base, e, a, d) && Within(base, {s}, d)
    ensures base + [s] <= d.at ==> (AddedSide(base + [s], At(e, [s]).value, d) <==> AddedSide(base, e, d))
  {
    var deep := base + [s];
    if deep <= d.at {
      var p := d.at[|deep|..];
      assert d.at[|base|..] == [s] + p;
      assert base <= d.at;
      TopmostStep(ctx, base, e, a, s, p);
      AtStep(e, s, p);
      AtStep(a, s, p);
      assert base + ([s] + p) == deep + p;
    } else if base <= d.at && Within(base, {s}, d) {
      PrefixStep(base, s, d.at);
      assert false;
    }
  }

  lemma PrefixStep(base: Path, s: Segment, at: Path)
    requires base <= at && |base| < |at| && at[|base|] == s
    ensures base + [s] <= at
  {
  }

  lemma TopmostShort(ctx: Context, base: Path, e: Json, a: Json, p: Path, n: nat)
    requires Topmost(ctx, base, e, a, p) && n <= |p| && Conflict(ctx, base, e, a, p[..n])
    ensures n == |p|
  {
  }

  /** A child present on one side only is itself the one topmost conflict through its segment. */
  lemma LoneChild(ctx: Context, base: Path, e: Json, a: Json, s: Segment, d: DriftEntry)
    requires SameContainer(e, a) && At(e, [s]).Some? != At(a, [s]).Some?
    ensures IsEntry(ctx, base, e, a, d) && Within(base, {s}, d) <==> d == EntryAt(ctx, base, e, a, [s])
  {
    assert Conflict(ctx, base, e, a, [s]);
    assert !Conflict(ctx, base, e, a, []);
    if d == EntryAt(ctx, base, e, a, [s]) {
      assert d.at[|base|..] == [s];
      assert [s][..0] == [];
    }
    if IsEntry(ctx, base, e, a, d) && Within(base, {s}, d) {
      var p := d.at[|base|..];
      assert p[..1] == [s];
      TopmostShort(ctx, base, e, a, p, 1);
      assert p == [s];
    }
  }

  /** Adding a shared child's lists. */
  lemma ExtendShared(ctx: Context, base: Path, e: Json, a: Json, done: set<Segment>, s: Segment,
                     added: seq<DriftEntry>, modified: seq<DriftEntry>,
                     added': seq<DriftEntry>, modified': seq<DriftEntry>)
    requires SameContainer(e, a) && At(e, [s]).Some? && At(a, [s]).Some? && s !in done
    requires ExactOn(ctx, base, e, a, done, added, modified)
    requires Exact(ctx, base + [s], At(e, [s]).value, At(a, [s]).value, added', modified')
    ensures ExactOn(ctx, base, e, a, done + {s}, added + added', modified + modified')
  {
    forall d
      ensures d in added' <==> IsEntry(ctx, base, e, a, d) && AddedSide(base, e, d) && Within(base, {s}, d)
      ensures d in modified' <==> IsEntry(ctx, base, e, a, d) && !AddedSide(base, e, d) && Within(base, {s}, d)
    {
      EntryStep(ctx, base, e, a, s, d);
    }
    assert forall d :: Within(base, done + {s}, d) <==> Within(base, done, d) || Within(base, {s}, d);
    NoRepeatAppend(base, done, s, added, added');
    NoRepeatAppend(base, done, s, modified, modified');
  }

  lemma NoRepeatAppend(base: Path, done: set<Segment>, s: Segment, xs: seq<DriftEntry>, ys: seq<DriftEntry>)
    requires NoRepeat(xs) && NoRepeat(ys) && s !in done
    requires forall d | d in xs :: Within(base, done, d)
    requires forall d | d in ys :: Within(base, {s}, d)
    ensures NoRepeat(xs + ys)
  {
    var zs := xs + ys;
    forall i, j | 0 <= i < j < |zs| ensures zs[i].at != zs[j].at {
      if i < |xs| && j >= |xs| {
        assert zs[i] in xs && zs[j] in ys;
      } else if i >= |xs| {
        assert zs[i] == ys[i - |xs|] && zs[j] == ys[j - |xs|];
      }
    }
  }

  /** Adding the entry of a child that only one side has. */
  lemma ExtendLone(ctx: Context, base: Path, e: Json, a: Json, done: set<Segment>, s: Segment,
                   added: seq<DriftEntry>, modified: seq<DriftEntry>)
    requires SameContainer(e, a) && At(e, [s]).Some? != At(a, [s]).Some? && s !in done
    requires ExactOn(ctx, base, e, a, done, added, modified)
    ensures At(e, [s]).None? ==>
              ExactOn(ctx, base, e, a, done + {s}, added + [EntryAt(ctx, base, e, a, [s])], modified)
    ensures At(e, [s]).Some? ==>
              ExactOn(ctx, base, e, a, done + {s}, added, modified + [EntryAt(ctx, base, e, a, [s])])
  {
    var x := EntryAt(ctx, base, e, a, [s]);
    forall d ensures IsEntry(ctx, base, e, a, d) && Within(base, {s}, d) <==> d == x {
      LoneChild(ctx, base, e, a, s, d);
    }
    assert x.at[|base|..] == [s];
    assert AddedSide(base, e, x) <==> At(e, [s]).None?;
    assert forall d :: Within(base, done + {s}, d) <==> Within(base, done, d) || Within(base, {s}, d);
    if At(e, [s]).None? {
      NoRepeatAppend(base, done, s, added, [x]);
    } else {
      NoRepeatAppend(base, done, s, modified, [x]);
    }
  }

  /** Once every segment that leads anywhere is done, the restriction is gone. */
  lemma Complete(ctx: Context, base: Path, e: Json, a: Json, done: set<Segment>,
                 added: seq<DriftEntry>, modified: seq<DriftEntry>)
    requires SameContainer(e, a)
    requires ExactOn(ctx, base, e, a, done, added, modified)
    requires forall s :: At(e, [s]).Some? || At(a, [s]).Some? ==> s in done
    ensures Exact(ctx, base, e, a, added, modified)
  {
    forall d | IsEntry(ctx, base, e, a, d) ensures Within(base, done, d) {
      var p := d.at[|base|..];
      assert p != [] by { assert !Conflict(ctx, base, e, a, []); }
      assert p == [p[0]] + p[1..];
      AtStep(e, p[0], p[1..]);
      AtStep(a, p[0], p[1..]);
    }
  }

  /** Leaves, and containers of different kinds. */
  lemma LeafExact(ctx: Context, base: Path, e: Json, a: Json)
    requires !SameContainer(e, a)
    ensures SameNode(ctx, base, e, a) ==> Exact(ctx, base, e, a, [], [])
    ensures !SameNode(ctx, base, e, a) ==> Exact(ctx, base, e, a, [], [DriftEntry(ctx.file, base, a, e)])
  {
    assert base + [] == base;
    if SameNode(ctx, base, e, a) {
      forall p: Path ensures !Topmost(ctx, base, e, a, p) {
        if p != [] {
          AgreeingLeaves(ctx, base, e, a, p);
        }
      }
    } else {
      var x := DriftEntry(ctx.file, base, a, e);
      forall d ensures IsEntry(ctx, base, e, a, d) <==> d == x {
        if IsEntry(ctx, base, e, a, d) {
          var p := d.at[|base|..];
          assert p[..0] == [];
          TopmostShort(ctx, base, e, a, p, 0);
          assert d.at == base;
        }
      }
      assert x.at[|base|..] == [];
    }
  }

  /** Equal leaves hide nothing below, and neither do two trivially empty ones. */
  lemma AgreeingLeaves(ctx: Context, base: Path, e: Json, a: Json, p: Path)
    requires !SameContainer(e, a) && SameNode(ctx, base, e, a) && p != []
    ensures !Conflict(ctx, base, e, a, p)
  {
    if e != a {
      assert TriviallyEmpty(e) && TriviallyEmpty(a);
      assert At(e, p).None? && At(a, p).None?;
    }
  }

  ghost function IndicesBelow(n: nat): set<Segment> {
    set i: nat | i < n :: Index(i)
  }

  /** `diff_json`: what it pushes onto `added` and `modified`, in the order it pushes. */
  method DiffJson(ctx: Context, prefix: Path, expected: Json, actual: Json)
    returns (added: seq<DriftEntry>, modified: seq<DriftEntry>)
    ensures Exact(ctx, prefix, expected, actual, added, modified)
    decreases expected, 1
  {
    match (expected, actual) {
      case (Obj(exp), Obj(act)) =>
        added, modified := DiffObjects(ctx, prefix, expected, actual);
      case (Arr(exp), Arr(act)) =>
        added, modified := DiffArrays(ctx, prefix, expected, actual);
      case _ =>
        LeafExact(ctx, prefix, expected, actual);
        if expected == actual || EmptyEquivalenceAllowed(ctx, Dotted(prefix), expected, actual) {
          added, modified := [], [];
        } else {
          added, modified := [], [DriftEntry(ctx.file, prefix, actual, expected)];
        }
    }
  }

  method DiffObjects(ctx: Context, prefix: Path, expected: Json, actual: Json)
    returns (added: seq<DriftEntry>, modified: seq<DriftEntry>)
    requires expected.Obj? && actual.Obj?
    ensures Exact(ctx, prefix, expected, actual, added, modified)
    decreases expected, 0
  {
    var exp, act := expected.fields, actual.fields;
    added, modified := [], [];
    ghost var done: set<Segment> := {};
    var todo := act.Keys;
    while todo != {}
      invariant todo <= act.Keys
      invariant forall s :: s in done <==> s.Key? && s.name in act.Keys - todo && s.name !in exp
      invariant ExactOn(ctx, prefix, expected, actual, done, added, modified)
    {
      var k :| k in todo;
      todo := todo - {k};
      if k !in exp {
        ExtendLone(ctx, prefix, expected, actual, done, Key(k), added, modified);
        added := added + [DriftEntry(ctx.file, prefix + [Key(k)], act[k], Null)];
        done := done + {Key(k)};
      }
    }
    todo := exp.Keys;
    while todo != {}
      invariant todo <= exp.Keys
      invariant forall s :: s in done <==> s.Key? && (s.name in act.Keys - exp.Keys || s.name in exp.Keys - todo)
      invariant ExactOn(ctx, prefix, expected, actual, done, added, modified)
    {
      var k :| k in todo;
      todo := todo - {k};
      if k in act {
        var add, mod := DiffJson(ctx, prefix + [Key(k)], exp[k], act[k]);
        ExtendShared(ctx, prefix, expected, actual, done, Key(k), added, modified, add, mod);
        added, modified := added + add, modified + mod;
      } else {
        ExtendLone(ctx, prefix, expected, actual, done, Key(k), added, modified);
        modified := modified + [DriftEntry(ctx.file, prefix + [Key(k)], Null, exp[k])];
      }
      done := done + {Key(k)};
    }
    Complete(ctx, prefix, expected, actual, done, added, modified);
  }

  method DiffArrays(ctx: Context, prefix: Path, expected: Json, actual: Json)
    returns (added: seq<DriftEntry>, modified: seq<DriftEntry>)
    requires expected.Arr? && actual.Arr?
    ensures Exact(ctx, prefix, expected, actual, added, modified)
    decreases expected, 0
  {
    var exp, act := expected.items, actual.items;
    var shared := if |exp| <= |act| then |exp| else |act|;
    added, modified := [], [];
    for idx := 0 to shared
      invariant ExactOn(ctx, prefix, expected, actual, IndicesBelow(idx), added, modified)
    {
      var add, mod := DiffJson(ctx, prefix + [Index(idx)], exp[idx], act[idx]);
      ExtendShared(ctx, prefix, expected, actual, IndicesBelow(idx), Index(idx), added, modified, add, mod);
      added, modified := added + add, modified + mod;
      assert IndicesBelow(idx) + {Index(idx)} == IndicesBelow(idx + 1);
    }
    for idx := shared to |act|
      invariant ExactOn(ctx, prefix, expected, actual, IndicesBelow(idx), added, modified)
    {
      ExtendLone(ctx, prefix, expected, actual, IndicesBelow(idx), Index(idx), added, modified);
      added := added + [DriftEntry(ctx.file, prefix + [Index(idx)], act[idx], Null)];
      assert IndicesBelow(idx) + {Index(idx)} == IndicesBelow(idx + 1);
    }
    for idx := shared to |exp|
      invariant ExactOn(ctx, prefix, expected, actual, IndicesBelow(if idx <= |act| then |act| else idx), added, modified)
    {
      ExtendLone(ctx, prefix, expected, actual, IndicesBelow(idx), Index(idx), added, modified);
      modified := modified + [DriftEntry(ctx.file, prefix + [Index(idx)], Null, exp[idx])];
      assert IndicesBelow(idx) + {Index(idx)} == IndicesBelow(idx + 1);
    }
    Complete(ctx, prefix, expected, actual, IndicesBelow(if |exp| <= |act| then |act| else |exp|), added, modified);
  }
}
