/**
 Aligning JSON shapes before the comparison: adapter arrays are sorted by name.

 `Norm` is the plain meaning, one rule per field.  The methods below follow the source, which
 normalises adapter elements a second time and descends into `network` and `networks` once
 more after their children were already normalised; they are proved to compute `Norm`.
 */
module DriftNormalize {
  import opened Common
  import opened JsonModel
  import opened BotConfigModel
  import opened DriftDiff
  import opened DriftTheorems

  // ---------------------------------------------------------------- stable sort by name

  /** `adapter_sort_key`: the `name` string, or the empty string. */
  function SortKey(v: Json): string {
    match Get(v, "name")
    case Some(Str(s)) => s
    case _ => ""
  }

  ghost predicate SortedByName(xs: seq<Json>) {
    forall i, j | 0 <= i < j < |xs| :: StrLe(SortKey(xs[i]), SortKey(xs[j]))
  }

  function Insert(x: Json, ys: seq<Json>): seq<Json> {
    if ys == [] || StrLe(SortKey(x), SortKey(ys[0])) then [x] + ys
    else [ys[0]] + Insert(x, ys[1..])
  }

  function SortByName(xs: seq<Json>): seq<Json> {
    if xs == [] then [] else Insert(xs[0], SortByName(xs[1..]))
  }

  /** The elements with one sort key, in their order. */
  function WithKey(xs: seq<Json>, key: string): seq<Json> {
    if xs == [] then []
    else (if SortKey(xs[0]) == key then [xs[0]] else []) + WithKey(xs[1..], key)
  }

  lemma {:induction false} InsertMembers(x: Json, ys: seq<Json>)
    ensures multiset(Insert(x, ys)) == multiset{x} + multiset(ys)
  {
    if ys != [] && !StrLe(SortKey(x), SortKey(ys[0])) {
      InsertMembers(x, ys[1..]);
      assert ys == [ys[0]] + ys[1..];
    }
  }

  /** Everything `r` holds is `x` or in `ys`, so a bound on those bounds all of `r`. */
  lemma BoundAll(low: string, r: seq<Json>, x: Json, ys: seq<Json>)
    requires multiset(r) == multiset{x} + multiset(ys)
    requires StrLe(low, SortKey(x)) && forall y | y in ys :: StrLe(low, SortKey(y))
    ensures forall j | 0 <= j < |r| :: StrLe(low, SortKey(r[j]))
  {
    forall j | 0 <= j < |r| ensures StrLe(low, SortKey(r[j])) {
      assert r[j] in multiset(r);
    }
  }

  lemma SortedCons(x: Json, ys: seq<Json>)
    requires SortedByName(ys) && forall j | 0 <= j < |ys| :: StrLe(SortKey(x), SortKey(ys[j]))
    ensures SortedByName([x] + ys)
  {
    var r := [x] + ys;
    forall i, j | 0 <= i < j < |r| ensures StrLe(SortKey(r[i]), SortKey(r[j])) {
      assert r[j] == ys[j - 1];
      assert i > 0 ==> r[i] == ys[i - 1];
    }
  }

  lemma {:induction false} InsertSorted(x: Json, ys: seq<Json>)
    requires SortedByName(ys)
    ensures SortedByName(Insert(x, ys))
  {
    if ys == [] {
    } else if StrLe(SortKey(x), SortKey(ys[0])) {
      forall j | 0 <= j < |ys| ensures StrLe(SortKey(x), SortKey(ys[j])) {
        if j > 0 {
          StrLeTrans(SortKey(x), SortKey(ys[0]), SortKey(ys[j]));
        }
      }
      SortedCons(x, ys);
    } else {
      var rest := ys[1..];
      InsertSorted(x, rest);
      InsertMembers(x, rest);
      StrLeTotal(SortKey(x), SortKey(ys[0]));
      BoundAll(SortKey(ys[0]), Insert(x, rest), x, rest);
      SortedCons(ys[0], Insert(x, rest));
    }
  }

  lemma WithKeyCons(x: Json, ys: seq<Json>, key: string)
    ensures WithKey([x] + ys, key) == (if SortKey(x) == key then [x] else []) + WithKey(ys, key)
  {
    assert ([x] + ys)[1..] == ys;
  }

  lemma {:induction false} InsertStable(x: Json, ys: seq<Json>, key: string)
    ensures WithKey(Insert(x, ys), key) == (if SortKey(x) == key then [x] else []) + WithKey(ys, key)
  {
    if ys == [] || StrLe(SortKey(x), SortKey(ys[0])) {
      WithKeyCons(x, ys, key);
    } else {
      InsertStable(x, ys[1..], key);
      WithKeyCons(ys[0], Insert(x, ys[1..]), key);
      StrLeRefl(SortKey(x));
      DistinctCommute(x, ys[0], WithKey(ys[1..], key), key);
    }
  }

  lemma DistinctCommute(x: Json, y: Json, rest: seq<Json>, key: string)
    requires SortKey(x) != SortKey(y)
    ensures (if SortKey(y) == key then [y] else []) + ((if SortKey(x) == key then [x] else []) + rest)
         == (if SortKey(x) == key then [x] else []) + ((if SortKey(y) == key then [y] else []) + rest)
  {
  }

  /** Sorted, a permutation, and stable: elements with equal keys keep their order. */
  lemma {:induction false} SortSpec(xs: seq<Json>, key: string)
    ensures SortedByName(SortByName(xs))
    ensures multiset(SortByName(xs)) == multiset(xs)
    ensures WithKey(SortByName(xs), key) == WithKey(xs, key)
  {
    if xs != [] {
      SortSpec(xs[1..], key);
      InsertSorted(xs[0], SortByName(xs[1..]));
      InsertMembers(xs[0], SortByName(xs[1..]));
      InsertStable(xs[0], SortByName(xs[1..]), key);
      assert xs == [xs[0]] + xs[1..];
    }
  }

  lemma {:induction false} WithKeyFirst(xs: seq<Json>, i: nat)
    requires i < |xs|
    ensures xs[i] in WithKey(xs, SortKey(xs[i]))
  {
    if i > 0 {
      WithKeyFirst(xs[1..], i - 1);
    }
  }

  lemma {:induction false} WithKeyMember(xs: seq<Json>, key: string, x: Json)
    requires x in WithKey(xs, key)
    ensures x in xs && SortKey(x) == key
  {
    if SortKey(xs[0]) == key && x == xs[0] {
    } else {
      WithKeyMember(xs[1..], key, x);
    }
  }

  /** Sortedness and stability determine the result, so any stable sort computes `SortByName`. */
  lemma {:induction false} StableSortUnique(r: seq<Json>, t: seq<Json>)
    requires SortedByName(r) && SortedByName(t)
    requires forall key :: WithKey(r, key) == WithKey(t, key)
    ensures r == t
  {
    if r == [] || t == [] {
      if r != [] {
        WithKeyFirst(r, 0);
        assert false;
      }
      if t != [] {
        WithKeyFirst(t, 0);
        assert false;
      }
    } else {
      var k, l := SortKey(r[0]), SortKey(t[0]);
      HeadIsLeast(r, t[0], l) by {
        WithKeyFirst(t, 0);
        WithKeyMember(r, l, t[0]);
      }
      HeadIsLeast(t, r[0], k) by {
        WithKeyFirst(r, 0);
        WithKeyMember(t, k, r[0]);
      }
      StrLeAntisym(k, l);
      assert WithKey(r, k)[0] == r[0] && WithKey(t, k)[0] == t[0];
      forall key ensures WithKey(r[1..], key) == WithKey(t[1..], key) {
        assert WithKey(r, key) == WithKey(t, key);
        if key == k {
          assert WithKey(r[1..], key) == WithKey(r, key)[1..];
          assert WithKey(t[1..], key) == WithKey(t, key)[1..];
        } else {
          assert WithKey(r[1..], key) == WithKey(r, key);
          assert WithKey(t[1..], key) == WithKey(t, key);
        }
      }
      StableSortUnique(r[1..], t[1..]);
      assert r == [r[0]] + r[1..] && t == [t[0]] + t[1..];
    }
  }

  lemma HeadIsLeast(r: seq<Json>, x: Json, key: string)
    requires SortedByName(r) && x in r && SortKey(x) == key
    ensures r != [] && StrLe(SortKey(r[0]), key)
  {
    var i :| 0 <= i < |r| && r[i] == x;
    StrLeRefl(key);
    assert i > 0 ==> StrLe(SortKey(r[0]), SortKey(r[i]));
  }

  lemma SortOfSorted(xs: seq<Json>)
    requires SortedByName(xs)
    ensures SortByName(xs) == xs
  {
    forall key ensures WithKey(SortByName(xs), key) == WithKey(xs, key) {
      SortSpec(xs, key);
    }
    SortSpec(xs, "");
    StableSortUnique(SortByName(xs), xs);
  }

  ghost predicate DistinctKeys(xs: seq<Json>) {
    forall i, j | 0 <= i < j < |xs| :: SortKey(xs[i]) != SortKey(xs[j])
  }

  /** The same elements in another order, told apart by their names. */
  ghost predicate Shuffle(xs: seq<Json>, ys: seq<Json>) {
    DistinctKeys(xs) && DistinctKeys(ys) && multiset(xs) == multiset(ys)
  }

  lemma ShuffleMembers(xs: seq<Json>, ys: seq<Json>)
    requires Shuffle(xs, ys)
    ensures forall x :: x in xs <==> x in ys
  {
    forall x ensures x in xs <==> x in ys {
      assert x in xs <==> x in multiset(xs);
      assert x in ys <==> x in multiset(ys);
    }
  }

  /** With distinct keys, the order before sorting does not matter. */
  lemma SortForgetsOrder(xs: seq<Json>, ys: seq<Json>)
    requires DistinctKeys(xs) && DistinctKeys(ys) && forall x :: x in xs <==> x in ys
    ensures SortByName(xs) == SortByName(ys)
  {
    forall key ensures WithKey(SortByName(xs), key) == WithKey(SortByName(ys), key) {
      SortSpec(xs, key);
      SortSpec(ys, key);
      SameWithKey(xs, ys, key);
    }
    SortSpec(xs, "");
    SortSpec(ys, "");
    StableSortUnique(SortByName(xs), SortByName(ys));
  }

  lemma SameWithKey(xs: seq<Json>, ys: seq<Json>, key: string)
    requires DistinctKeys(xs) && DistinctKeys(ys) && forall x :: x in xs <==> x in ys
    ensures WithKey(xs, key) == WithKey(ys, key)
  {
    AtMostOneWithKey(xs, key);
    AtMostOneWithKey(ys, key);
    forall x ensures x in WithKey(xs, key) <==> x in WithKey(ys, key) {
      if x in WithKey(xs, key) {
        CarryOver(xs, ys, key, x);
      } else if x in WithKey(ys, key) {
        CarryOver(ys, xs, key, x);
      }
    }
    ShortListsEqual(WithKey(xs, key), WithKey(ys, key));
  }

  lemma ShortListsEqual(a: seq<Json>, b: seq<Json>)
    requires |a| <= 1 && |b| <= 1 && forall x :: x in a <==> x in b
    ensures a == b
  {
    if a != [] {
      assert a[0] in b;
    }
    assert b != [] ==> b[0] in a;
  }

  lemma CarryOver(xs: seq<Json>, ys: seq<Json>, key: string, x: Json)
    requires x in WithKey(xs, key) && forall y | y in xs :: y in ys
    ensures x in WithKey(ys, key)
  {
    WithKeyMember(xs, key, x);
    var i :| 0 <= i < |ys| && ys[i] == x;
    WithKeyFirst(ys, i);
  }

  lemma {:induction false} AtMostOneWithKey(xs: seq<Json>, key: string)
    requires DistinctKeys(xs)
    ensures |WithKey(xs, key)| <= 1
  {
    if xs != [] {
      AtMostOneWithKey(xs[1..], key);
      if SortKey(xs[0]) == key && WithKey(xs[1..], key) != [] {
        WithKeyMember(xs[1..], key, WithKey(xs[1..], key)[0]);
        assert false;
      }
    }
  }

  // ---------------------------------------------------------------- the normal form

  const NETWORK_KEYS: seq<string> := [
    "network", "networks", "httpServers", "httpSseServers", "httpClients",
    "websocketServers", "websocketClients", "wsServers", "wsClients", "plugins"]

  /** The keys under which a list holds adapters. */
  predicate AdapterKey(k: string) {
    k == "network" || k == "networks" || k == "httpServers" || k == "httpSseServers" || k == "httpClients"
    || k == "websocketServers" || k == "websocketClients" || k == "wsServers" || k == "wsClients" || k == "plugins"
  }

  lemma AdapterKeys(k: string)
    ensures k in NETWORK_KEYS <==> AdapterKey(k)
  {
    KeysByPlace();
    TenKeys(NETWORK_KEYS, k);
  }

  lemma TenKeys(ks: seq<string>, k: string)
    requires |ks| == 10
    ensures k in ks <==> k == ks[0] || k == ks[1] || k == ks[2] || k == ks[3] || k == ks[4] || k == ks[5] || k == ks[6]
                         || k == ks[7] || k == ks[8] || k == ks[9]
  {
  }

  lemma KeysByPlace()
    ensures |NETWORK_KEYS| == 10
    ensures NETWORK_KEYS[0] == "network" && NETWORK_KEYS[1] == "networks" && NETWORK_KEYS[2] == "httpServers"
    ensures NETWORK_KEYS[3] == "httpSseServers" && NETWORK_KEYS[4] == "httpClients"
    ensures NETWORK_KEYS[5] == "websocketServers" && NETWORK_KEYS[6] == "websocketClients"
    ensures NETWORK_KEYS[7] == "wsServers" && NETWORK_KEYS[8] == "wsClients" && NETWORK_KEYS[9] == "plugins"
  {
  }

  function Norm(v: Json): Json
    decreases v, 0
  {
    match v
    case Obj(m) => Obj(map k | k in m :: NormField(k, m[k]))
    case Arr(xs) => Arr(seq(|xs|, i requires 0 <= i < |xs| => Norm(xs[i])))
    case _ => v
  }

  /** Arrays under a network key are sorted, everything else is normalised in place. */
  function NormField(key: string, v: Json): Json
    decreases v, 1
  {
    var n := Norm(v);
    if n.Arr? && key in NETWORK_KEYS then Arr(SortByName(n.items)) else n
  }

  lemma NormKeepsSortKey(v: Json)
    ensures SortKey(Norm(v)) == SortKey(v)
  {
    if v.Obj? && "name" in v.fields {
      assert "name" !in NETWORK_KEYS;
      assert Norm(v).fields["name"] == Norm(v.fields["name"]);
    }
  }

  lemma {:induction false} NormFieldIdempotent(key: string, v: Json)
    requires Norm(Norm(v)) == Norm(v)
    ensures Norm(NormField(key, v)) == NormField(key, v)
    ensures NormField(key, NormField(key, v)) == NormField(key, v)
  {
    var n := Norm(v);
    if n.Arr? && key in NETWORK_KEYS {
      var xs := n.items;
      var r := SortByName(xs);
      SortSpec(xs, "");
      forall i | 0 <= i < |r| ensures Norm(r[i]) == r[i] {
        assert r[i] in multiset(xs);
        var j :| 0 <= j < |xs| && xs[j] == r[i];
        assert Norm(n).items[j] == Norm(xs[j]);
      }
      assert Norm(Arr(r)).items == r;
      SortOfSorted(r);
    }
  }

  /** Normalising twice changes nothing more. */
  lemma {:induction false} NormIdempotent(v: Json)
    ensures Norm(Norm(v)) == Norm(v)
  {
    match v {
      case Obj(m) =>
        var n := Norm(v).fields;
        forall k | k in m ensures NormField(k, n[k]) == n[k] {
          NormIdempotent(m[k]);
          NormFieldIdempotent(k, m[k]);
        }
        assert Norm(Obj(n)).fields == n;
      case Arr(xs) =>
        var n := Norm(v).items;
        forall i | 0 <= i < |xs| ensures Norm(n[i]) == n[i] {
          NormIdempotent(xs[i]);
        }
        assert Norm(Arr(n)).items == n;
      case _ =>
    }
  }

  // ---------------------------------------------------------------- reordering adapters

  /**
   The same document up to the order of adapter arrays: below a network key, an array may
   have been permuted when its elements have distinct names.
   */
  ghost predicate Reordered(v: Json, w: Json)
    decreases v, 1
  {
    match (v, w)
    case (Obj(m), Obj(n)) =>
      m.Keys == n.Keys && forall k | k in m ::
        (Reordered(m[k], n[k]) || (AdapterKey(k) && ReorderedAdapters(m[k], n[k])))
    case (Arr(xs), Arr(ys)) =>
      |xs| == |ys| && forall i | 0 <= i < |xs| :: Reordered(xs[i], ys[i])
    case _ => v == w
  }

  ghost predicate ReorderedAdapters(v: Json, w: Json)
    decreases v, 0
  {
    v.Arr? && w.Arr?
    && exists mid: seq<Json> ::
         Shuffle(mid, w.items) && |mid| == |v.items| && forall i | 0 <= i < |mid| :: Reordered(v.items[i], mid[i])
  }

  function NormSeq(xs: seq<Json>): seq<Json> {
    seq(|xs|, i requires 0 <= i < |xs| => Norm(xs[i]))
  }

  lemma NormSeqShuffle(xs: seq<Json>, ys: seq<Json>)
    requires Shuffle(xs, ys)
    ensures DistinctKeys(NormSeq(xs))
    ensures forall x | x in NormSeq(xs) :: x in NormSeq(ys)
  {
    forall i | 0 <= i < |xs| ensures SortKey(NormSeq(xs)[i]) == SortKey(xs[i]) {
      NormKeepsSortKey(xs[i]);
    }
    ShuffleMembers(xs, ys);
    forall x | x in NormSeq(xs) ensures x in NormSeq(ys) {
      var i :| 0 <= i < |xs| && NormSeq(xs)[i] == x;
      assert xs[i] in ys;
      var j :| 0 <= j < |ys| && ys[j] == xs[i];
      assert NormSeq(ys)[j] == x;
    }
  }

  lemma NormFieldForgetsOrder(k: string, v: Json, w: Json, mid: seq<Json>)
    requires v.Arr? && w.Arr? && k in NETWORK_KEYS
    requires Shuffle(mid, w.items) && NormSeq(v.items) == NormSeq(mid)
    ensures NormField(k, v) == NormField(k, w)
  {
    NormSeqShuffle(mid, w.items);
    NormSeqShuffle(w.items, mid);
    SortForgetsOrder(NormSeq(mid), NormSeq(w.items));
    assert Norm(v).items == NormSeq(v.items) && Norm(w).items == NormSeq(w.items);
  }

  /** Reordering adapters anywhere does not change the normal form. */
  lemma {:induction false} NormForgetsAdapterOrder(v: Json, w: Json)
    requires Reordered(v, w)
    ensures Norm(v) == Norm(w)
    decreases v, 1
  {
    match (v, w) {
      case (Obj(m), Obj(n)) =>
        forall k | k in m ensures NormField(k, m[k]) == NormField(k, n[k]) {
          if Reordered(m[k], n[k]) {
            NormForgetsAdapterOrder(m[k], n[k]);
          } else {
            NormForgetsAdapters(k, m[k], n[k]);
          }
        }
        assert Norm(v).fields == Norm(w).fields;
      case (Arr(xs), Arr(ys)) =>
        forall i | 0 <= i < |xs| ensures Norm(xs[i]) == Norm(ys[i]) {
          NormForgetsAdapterOrder(xs[i], ys[i]);
        }
        assert Norm(v).items == Norm(w).items;
      case _ =>
    }
  }

  lemma {:induction false} NormForgetsAdapters(k: string, v: Json, w: Json)
    requires AdapterKey(k) && ReorderedAdapters(v, w)
    ensures NormField(k, v) == NormField(k, w)
    decreases v, 0
  {
    var xs, ys := v.items, w.items;
    var mid :| Shuffle(mid, ys) && |mid| == |xs| && forall i | 0 <= i < |mid| :: Reordered(xs[i], mid[i]);
    forall i | 0 <= i < |xs| ensures Norm(xs[i]) == Norm(mid[i]) {
      NormForgetsAdapterOrder(xs[i], mid[i]);
    }
    assert NormSeq(xs) == NormSeq(mid);
    AdapterKeys(k);
    NormFieldForgetsOrder(k, v, w, mid);
  }

  /** Reordering never causes drift. */
  lemma ReorderingIsNotDrift(ctx: Context, e: Json, a: Json, added: seq<DriftEntry>, modified: seq<DriftEntry>)
    requires Reordered(e, a) && Exact(ctx, [], Norm(e), Norm(a), added, modified)
    ensures added == [] && modified == []
  {
    NormForgetsAdapterOrder(e, a);
    AlikeReflexive(ctx, [], Norm(e));
    CleanIffAlike(ctx, Norm(e), Norm(a), added, modified);
  }

  /** Adapters that have names stand in the order of the names, behind those that have none. */
  ghost predicate InNameOrder(xs: seq<Json>) {
    && (forall i, j, s, t | 0 <= i < j < |xs| && Get(xs[i], "name") == Some(Str(s)) && Get(xs[j], "name") == Some(Str(t)) ::
          StrLe(s, t))
    && forall i, j | 0 <= i < j < |xs| && Named(xs[i]) :: Named(xs[j])
  }

  predicate Named(v: Json) {
    match Get(v, "name") case Some(Str(s)) => s != "" case _ => false
  }

  /** What the normal form of an object holds under each key: adapters normalised one by one and put in
      the order of their names, any other list in its own order. */
  lemma NormByField(m: map<string, Json>, k: string)
    requires k in m
    ensures Norm(Obj(m)).Obj? && Norm(Obj(m)).fields.Keys == m.Keys
    ensures var n := Norm(Obj(m)).fields[k];
      if !m[k].Arr? then n == Norm(m[k])
      else n.Arr? && if AdapterKey(k) then multiset(n.items) == multiset(NormSeq(m[k].items)) && InNameOrder(n.items)
                     else n.items == NormSeq(m[k].items)
  {
    AdapterKeys(k);
    if m[k].Arr? {
      assert Norm(m[k]).items == NormSeq(m[k].items);
      SortSpec(NormSeq(m[k].items), "");
      SortedMeansInOrder(SortByName(NormSeq(m[k].items)));
    }
  }

  lemma SortedMeansInOrder(xs: seq<Json>)
    requires SortedByName(xs)
    ensures InNameOrder(xs)
  {
    forall i, j, s, t | 0 <= i < j < |xs| && Get(xs[i], "name") == Some(Str(s)) && Get(xs[j], "name") == Some(Str(t))
      ensures StrLe(s, t)
    {
      assert SortKey(xs[i]) == s && SortKey(xs[j]) == t;
    }
    forall i, j | 0 <= i < j < |xs| && Named(xs[i]) ensures Named(xs[j]) {
      assert StrLe(SortKey(xs[i]), SortKey(xs[j]));
    }
  }

  // ---------------------------------------------------------------- the walk of the source

  /** Nesting is at most `d`; the measure the walk descends on, which normalising keeps. */
  ghost predicate DepthLe(v: Json, d: nat) {
    match v
    case Obj(m) => d > 0 && forall k | k in m :: DepthLe(m[k], d - 1)
    case Arr(xs) => d > 0 && forall i | 0 <= i < |xs| :: DepthLe(xs[i], d - 1)
    case _ => true
  }

  lemma {:induction false} DepthLeMonotone(v: Json, d: nat, d': nat)
    requires DepthLe(v, d) && d <= d'
    ensures DepthLe(v, d')
    decreases v
  {
    match v {
      case Obj(m) =>
        forall k | k in m ensures DepthLe(m[k], d' - 1) {
          DepthLeMonotone(m[k], d - 1, d' - 1);
        }
      case Arr(xs) =>
        forall i | 0 <= i < |xs| ensures DepthLe(xs[i], d' - 1) {
          DepthLeMonotone(xs[i], d - 1, d' - 1);
        }
      case _ =>
    }
  }

  lemma {:induction false} DepthExists(v: Json) returns (d: nat)
    ensures DepthLe(v, d)
    decreases v
  {
    match v {
      case Obj(m) =>
        var top := 0;
        var todo := m.Keys;
        while todo != {}
          invariant todo <= m.Keys
          invariant forall k | k in m.Keys - todo :: DepthLe(m[k], top)
        {
          var k :| k in todo;
          var dk := DepthExists(m[k]);
          var higher := if dk > top then dk else top;
          forall j | j in m.Keys - (todo - {k}) ensures DepthLe(m[j], higher) {
            DepthLeMonotone(m[j], if j == k then dk else top, higher);
          }
          top, todo := higher, todo - {k};
        }
        d := top + 1;
      case Arr(xs) =>
        var top := 0;
        for i := 0 to |xs|
          invariant forall j | 0 <= j < i :: DepthLe(xs[j], top)
        {
          var di := DepthExists(xs[i]);
          var higher := if di > top then di else top;
          forall j | 0 <= j <= i ensures DepthLe(xs[j], higher) {
            DepthLeMonotone(xs[j], if j == i then di else top, higher);
          }
          top := higher;
        }
        d := top + 1;
      case _ =>
        d := 0;
    }
  }

  lemma SortKeepsDepth(xs: seq<Json>, d: nat)
    requires forall i | 0 <= i < |xs| :: DepthLe(xs[i], d)
    ensures forall i | 0 <= i < |SortByName(xs)| :: DepthLe(SortByName(xs)[i], d)
  {
    SortSpec(xs, "");
    var r := SortByName(xs);
    forall i | 0 <= i < |r| ensures DepthLe(r[i], d) {
      assert r[i] in multiset(xs);
    }
  }

  lemma {:induction false} NormKeepsDepth(v: Json, d: nat)
    requires DepthLe(v, d)
    ensures DepthLe(Norm(v), d)
    decreases v
  {
    match v {
      case Obj(m) =>
        forall k | k in m ensures DepthLe(NormField(k, m[k]), d - 1) {
          NormKeepsDepth(m[k], d - 1);
          var n := Norm(m[k]);
          if n.Arr? {
            SortKeepsDepth(n.items, d - 2);
          }
        }
      case Arr(xs) =>
        forall i | 0 <= i < |xs| ensures DepthLe(Norm(xs[i]), d - 1) {
          NormKeepsDepth(xs[i], d - 1);
        }
      case _ =>
    }
  }

  /** In a normal form every field is itself normal, and its field rule changes nothing. */
  lemma NormalFields(m: map<string, Json>)
    requires Norm(Obj(m)) == Obj(m)
    ensures forall k | k in m :: Norm(m[k]) == m[k] && NormField(k, m[k]) == m[k]
  {
    forall k | k in m ensures Norm(m[k]) == m[k] && NormField(k, m[k]) == m[k] {
      assert Norm(Obj(m)).fields[k] == NormField(k, m[k]);
      NormIdempotent(m[k]);
      NormFieldIdempotent(k, m[k]);
    }
  }

  lemma NormFieldOfNorm(k: string, v: Json)
    ensures NormField(k, Norm(v)) == NormField(k, v)
  {
    NormIdempotent(v);
  }

  /** `normalize_values_for_drift` on a subtree of nesting at most `d`. */
  method NormalizeValues(v: Json, ghost d: nat) returns (r: Json)
    requires DepthLe(v, d)
    ensures r == Norm(v)
    decreases d, 2
  {
    match v {
      case Obj(m) =>
        var fields := NormalizeChildren(m, d);
        forall k | k in m ensures DepthLe(fields[k], d - 1) && Norm(fields[k]) == fields[k] {
          NormKeepsDepth(m[k], d - 1);
          NormIdempotent(m[k]);
        }
        var sorted := SortNetworkAdapterArrays(fields, d);
        forall k | k in m ensures sorted[k] == NormField(k, m[k]) {
          NormFieldOfNorm(k, m[k]);
        }
        r := Obj(sorted);
        assert sorted == Norm(v).fields;
      case Arr(xs) =>
        var items := NormalizeItems(xs, d);
        r := Arr(items);
      case _ =>
        r := v;
    }
  }

  method NormalizeChildren(m: map<string, Json>, ghost d: nat) returns (fields: map<string, Json>)
    requires d > 0 && forall k | k in m :: DepthLe(m[k], d - 1)
    ensures fields.Keys == m.Keys && forall k | k in m :: fields[k] == Norm(m[k])
    decreases d, 1
  {
    fields := m;
    var todo := m.Keys;
    while todo != {}
      invariant todo <= m.Keys == fields.Keys
      invariant forall k | k in m :: fields[k] == if k in todo then m[k] else Norm(m[k])
    {
      var k :| k in todo;
      var val := NormalizeValues(m[k], d - 1);
      fields, todo := fields[k := val], todo - {k};
    }
  }

  method NormalizeItems(xs: seq<Json>, ghost d: nat) returns (items: seq<Json>)
    requires d > 0 && forall i | 0 <= i < |xs| :: DepthLe(xs[i], d - 1)
    ensures items == NormSeq(xs)
    decreases d, 1
  {
    items := xs;
    for i := 0 to |xs|
      invariant |items| == |xs|
      invariant forall j | 0 <= j < |xs| :: items[j] == if j < i then Norm(xs[j]) else xs[j]
    {
      var item := NormalizeValues(xs[i], d - 1);
      items := items[i := item];
    }
  }

  /** The fields, those under `keys` normalised and sorted. */
  function SortedUnder(m: map<string, Json>, keys: seq<string>): map<string, Json> {
    map k | k in m :: if k in keys then NormField(k, m[k]) else m[k]
  }

  lemma SortedUnderMore(m: map<string, Json>, keys: seq<string>, key: string)
    requires key in NETWORK_KEYS && forall k | k in m :: Norm(m[k]) == m[k]
    ensures SortedUnder(m, keys + [key])
      == if key in m && m[key].Arr? then SortedUnder(m, keys)[key := NormField(key, m[key])] else SortedUnder(m, keys)
  {
    if key in m && !m[key].Arr? {
      assert NormField(key, m[key]) == m[key];
    }
  }

  lemma AllSorted(m: map<string, Json>)
    requires forall k | k in m :: Norm(m[k]) == m[k]
    ensures forall k | k in m :: SortedUnder(m, NETWORK_KEYS)[k] == NormField(k, m[k])
  {
    forall k | k in m ensures SortedUnder(m, NETWORK_KEYS)[k] == NormField(k, m[k]) {
      if k !in NETWORK_KEYS {
        assert NormField(k, m[k]) == Norm(m[k]);
      }
    }
  }

  /** `sort_network_adapter_arrays`, called on fields that are already normalised. */
  method SortNetworkAdapterArrays(m: map<string, Json>, ghost d: nat) returns (r: map<string, Json>)
    requires d > 0 && forall k | k in m :: DepthLe(m[k], d - 1)
    requires forall k | k in m :: Norm(m[k]) == m[k]
    ensures r.Keys == m.Keys && forall k | k in m :: r[k] == NormField(k, m[k])
    decreases d, 0
  {
    r := m;
    for i := 0 to |NETWORK_KEYS|
      invariant r == SortedUnder(m, NETWORK_KEYS[..i])
    {
      var key := NETWORK_KEYS[i];
      SortedUnderMore(m, NETWORK_KEYS[..i], key);
      assert NETWORK_KEYS[..i + 1] == NETWORK_KEYS[..i] + [key];
      if key in m && m[key].Arr? {
        var arr := SortAdapterArrayByName(m[key].items, d - 1);
        assert NormSeq(m[key].items) == m[key].items;
        r := r[key := Arr(arr)];
      }
    }
    assert NETWORK_KEYS[..|NETWORK_KEYS|] == NETWORK_KEYS;
    AllSorted(m);
    r := SortInside(m, r, "network", d);
    r := SortInside(m, r, "networks", d);
  }

  lemma ObjectField(key: string, v: Json)
    ensures NormField(key, v).Obj? ==> NormField(key, v) == Norm(v)
  {
  }

  /** The descent into one nested network object. */
  method SortInside(ghost m: map<string, Json>, r: map<string, Json>, key: string, ghost d: nat)
    returns (r': map<string, Json>)
    requires d > 0 && forall k | k in m :: DepthLe(m[k], d - 1)
    requires forall k | k in m :: Norm(m[k]) == m[k]
    requires r.Keys == m.Keys && forall k | k in m :: r[k] == NormField(k, m[k])
    ensures r' == r
    decreases d - 1, 2
  {
    hide Norm, NormField, SortByName;
    r' := r;
    if key in r && r[key].Obj? {
      var net := r[key].fields;
      ObjectField(key, m[key]);
      assert r[key] == m[key];
      NormalFields(net);
      var sorted := SortNetworkAdapterArrays(net, d - 1);
      assert sorted == net;
      r' := r[key := Obj(sorted)];
    }
  }

  /** `sort_adapter_array_by_name`: normalise each element, then sort. */
  method SortAdapterArrayByName(arr: seq<Json>, ghost d: nat) returns (r: seq<Json>)
    requires d > 0 && forall i | 0 <= i < |arr| :: DepthLe(arr[i], d - 1)
    ensures r == SortByName(NormSeq(arr))
    decreases d, 3
  {
    var items := NormalizeItems(arr, d);
    r := SortByName(items);
  }

  /** One file of `detect_drift`: normalise the rendered and the read document, then compare. */
  method CompareFile(backend: Backend, file: string, expected: Json, actual: Json)
    returns (added: seq<DriftEntry>, modified: seq<DriftEntry>)
    ensures Exact(FileContext(backend, file), [], Norm(expected), Norm(actual), added, modified)
  {
    ghost var de := DepthExists(expected);
    ghost var da := DepthExists(actual);
    var expectedNorm := NormalizeValues(expected, de);
    var actualNorm := NormalizeValues(actual, da);
    added, modified := DiffJson(FileContext(backend, file), [], expectedNorm, actualNorm);
  }
}
