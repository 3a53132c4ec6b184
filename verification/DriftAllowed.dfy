/**
 Which differences the comparison lets pass, position by position.

 The allow-list is a list of patterns for dotted strings; here the positions it stands for are written
 out as segments, and a rendered file that differs from the one on disk only in such empty values is
 shown to give a clean report, through the sorting of the normal form.
 */
module DriftAllowed {
  import opened Common
  import opened JsonModel
  import opened BotConfigModel
  import opened DriftDiff
  import opened DriftTheorems
  import opened DriftNormalize
  import opened Render

  // ---------------------------------------------------------------- the positions

  /** A value that holds nothing. */
  predicate Hollow(v: Json) {
    v == Null || v == Str("") || v == Arr([]) || v == Obj(map[])
  }

  /** A field of an element of a list two levels down. */
  predicate IsField(p: Path, top: string, list: string, field: string) {
    |p| == 4 && p[0] == Key(top) && p[1] == Key(list) && p[3] == Key(field)
  }

  predicate NapcatPosition(p: Path) {
    || p == [Key("musicSignUrl")]
    || IsField(p, "network", "httpServers", "token")
    || IsField(p, "network", "httpSseServers", "token")
    || IsField(p, "network", "httpClients", "token")
    || IsField(p, "network", "httpClients", "url")
    || IsField(p, "network", "websocketServers", "token")
    || IsField(p, "network", "websocketClients", "token")
    || IsField(p, "network", "websocketClients", "url")
  }

  predicate SnowlumaPosition(p: Path) {
    || p == [Key("musicSignUrl")]
    || p == [Key("statusCommand")]
    || IsField(p, "networks", "httpServers", "accessToken")
    || IsField(p, "networks", "httpClients", "accessToken")
    || IsField(p, "networks", "httpClients", "url")
    || IsField(p, "networks", "wsServers", "accessToken")
    || IsField(p, "networks", "wsClients", "accessToken")
    || IsField(p, "networks", "wsClients", "url")
  }

  /** Where the files of a bot may differ by empty values. */
  predicate MayBeEmpty(backend: Backend, id: string, file: string, p: Path) {
    match backend
    case NapCat => file == "onebot11_" + id + ".json" && NapcatPosition(p)
    case SnowLuma => file == "onebot_" + id + ".json" && SnowlumaPosition(p)
  }

  // ---------------------------------------------------------------- patterns and positions

  function Texts(p: Path): seq<string> {
    seq(|p|, i requires 0 <= i < |p| => SegmentText(p[i]))
  }

  /** A pattern, as the segments it is made of. */
  predicate Covers(pattern: seq<string>, p: Path) {
    |pattern| == |p| && forall i | 0 <= i < |p| :: pattern[i] == "*" || pattern[i] == SegmentText(p[i])
  }

  lemma PatternCovers(pattern: string, parts: seq<string>, p: Path)
    requires SplitDots(pattern) == parts && CleanPath(p) && (|parts| == 1 ==> parts[0] != "" && parts[0] != "*")
    ensures PathMatch(pattern, Dotted(p)) <==> Covers(parts, p)
  {
    if p == [] {
      assert SplitDots("") == [""];
    } else {
      SplitDotted(p);
    }
  }

  lemma OnePart(name: string)
    requires '.' !in name
    ensures SplitDots(name) == [name]
  {
    SplitClean(name);
  }

  lemma FourParts(a: string, b: string, c: string)
    requires '.' !in a && '.' !in b && '.' !in c
    ensures SplitDots(a + "." + b + ".*." + c) == [a, b, "*", c]
  {
    SplitClean(a);
    SplitAppend(a, b);
    SplitAppend(a + "." + b, "*");
    SplitAppend(a + "." + b + "." + "*", c);
    assert a + "." + b + ".*." + c == a + "." + b + "." + "*" + "." + c;
  }

  /** A literal name is not the text of an index. */
  lemma NamedSegment(s: Segment, name: string)
    requires name != "" && !IsDigit(name[0])
    ensures SegmentText(s) == name <==> s == Key(name)
  {
    if s.Index? {
      assert IsDigit(Decimal(s.pos)[0]);
    }
  }

  lemma OneSegment(p: Path, name: string)
    requires CleanPath(p) && name != "" && name != "*" && '.' !in name && !IsDigit(name[0])
    ensures PathMatch(name, Dotted(p)) <==> p == [Key(name)]
  {
    OnePart(name);
    PatternCovers(name, [name], p);
    if |p| == 1 {
      NamedSegment(p[0], name);
    }
  }

  lemma FourSegments(p: Path, a: string, b: string, c: string)
    requires CleanPath(p) && '.' !in a && '.' !in b && '.' !in c && a != "*" && b != "*" && c != "*"
    requires a != "" && b != "" && c != "" && !IsDigit(a[0]) && !IsDigit(b[0]) && !IsDigit(c[0])
    ensures PathMatch(a + "." + b + ".*." + c, Dotted(p)) <==> IsField(p, a, b, c)
  {
    FourParts(a, b, c);
    PatternCovers(a + "." + b + ".*." + c, [a, b, "*", c], p);
    if |p| == 4 {
      NamedSegment(p[0], a);
      NamedSegment(p[1], b);
      NamedSegment(p[3], c);
    }
  }

  /** A pattern of one star stands for the names that begin and end as it does. */
  lemma {:induction false} StarSplits(before: string, after: string)
    requires '*' !in before
    ensures SplitOnceStar(before + "*" + after) == Some((before, after))
  {
    var s := before + "*" + after;
    if before == "" {
      assert s == "*" + after && s[1..] == after;
    } else {
      assert s[1..] == before[1..] + "*" + after && [s[0]] + before[1..] == before;
      StarSplits(before[1..], after);
    }
  }

  lemma MainFileNames(id: string, file: string)
    ensures WildcardMatch("onebot11_*.json", file) <==> StartsWith(file, "onebot11_") && EndsWith(file, ".json")
    ensures WildcardMatch("onebot_*.json", file) <==> StartsWith(file, "onebot_") && EndsWith(file, ".json")
  {
    StarSplits("onebot11_", ".json");
    StarSplits("onebot_", ".json");
    assert "onebot11_" + "*" + ".json" == "onebot11_*.json" && "onebot_" + "*" + ".json" == "onebot_*.json";
  }

  // ---------------------------------------------------------------- the allow-list, written out

  predicate PatternFor(backend: Backend, path: string) {
    exists r | r in EMPTY_EQUIVALENCE_RULES :: r.backend == backend && PathMatch(r.path, path)
  }

  lemma NapcatRulesCover(p: Path)
    requires CleanPath(p)
    ensures PatternFor(NapCat, Dotted(p)) <==> NapcatPosition(p)
  {
    hide PathMatch, Dotted, IsField;
    var q := Dotted(p);
    OneSegment(p, "musicSignUrl");
    FourSegments(p, "network", "httpServers", "token");
    FourSegments(p, "network", "httpSseServers", "token");
    FourSegments(p, "network", "httpClients", "token");
    FourSegments(p, "network", "httpClients", "url");
    FourSegments(p, "network", "websocketServers", "token");
    FourSegments(p, "network", "websocketClients", "token");
    FourSegments(p, "network", "websocketClients", "url");
    NapcatPatterns(q);
  }

  /** The first eight rules are NapCat's, the others SnowLuma's. */
  predicate ByPlace(rs: seq<EmptyRule>) {
    |rs| == 16 && forall i | 0 <= i < 16 :: rs[i].backend == if i < 8 then NapCat else SnowLuma
  }

  lemma RulesByPlace(rs: seq<EmptyRule>, backend: Backend, path: string)
    requires ByPlace(rs)
    ensures (exists r | r in rs :: r.backend == backend && PathMatch(r.path, path)) <==>
      var k := if backend == NapCat then 0 else 8;
      || PathMatch(rs[k].path, path) || PathMatch(rs[k + 1].path, path) || PathMatch(rs[k + 2].path, path)
      || PathMatch(rs[k + 3].path, path) || PathMatch(rs[k + 4].path, path) || PathMatch(rs[k + 5].path, path)
      || PathMatch(rs[k + 6].path, path) || PathMatch(rs[k + 7].path, path)
  {
    hide PathMatch;
    var k := if backend == NapCat then 0 else 8;
    forall i | k <= i < k + 8 && PathMatch(rs[i].path, path)
      ensures exists r | r in rs :: r.backend == backend && PathMatch(r.path, path)
    {
      assert rs[i] in rs;
    }
    if r :| r in rs && r.backend == backend && PathMatch(r.path, path) {
      var i :| 0 <= i < 16 && rs[i] == r;
      assert k <= i < k + 8;
    }
  }

  lemma BackendsByPlace()
    ensures ByPlace(EMPTY_EQUIVALENCE_RULES)
  {
  }

  lemma NapcatPatterns(q: string)
    ensures PatternFor(NapCat, q) <==>
      || PathMatch("musicSignUrl", q)
      || PathMatch("network" + "." + "httpServers" + ".*." + "token", q)
      || PathMatch("network" + "." + "httpSseServers" + ".*." + "token", q)
      || PathMatch("network" + "." + "httpClients" + ".*." + "token", q)
      || PathMatch("network" + "." + "httpClients" + ".*." + "url", q)
      || PathMatch("network" + "." + "websocketServers" + ".*." + "token", q)
      || PathMatch("network" + "." + "websocketClients" + ".*." + "token", q)
      || PathMatch("network" + "." + "websocketClients" + ".*." + "url", q)
  {
    hide PathMatch, ByPlace;
    BackendsByPlace();
    RulesByPlace(EMPTY_EQUIVALENCE_RULES, NapCat, q);
    NapcatTexts();
  }

  // The literals of the list, spelled with their parts.

  lemma Text1()
    ensures "network" + "." + "httpServers" + ".*." + "token" == "network.httpServers.*.token"
  {
  }

  lemma Text2()
    ensures "network" + "." + "httpSseServers" + ".*." + "token" == "network.httpSseServers.*.token"
  {
  }

  lemma Text3()
    ensures "network" + "." + "httpClients" + ".*." + "token" == "network.httpClients.*.token"
  {
  }

  lemma Text4()
    ensures "network" + "." + "httpClients" + ".*." + "url" == "network.httpClients.*.url"
  {
  }

  lemma Text5()
    ensures "network" + "." + "websocketServers" + ".*." + "token" == "network.websocketServers.*.token"
  {
  }

  lemma Text6()
    ensures "network" + "." + "websocketClients" + ".*." + "token" == "network.websocketClients.*.token"
  {
  }

  lemma Text7()
    ensures "network" + "." + "websocketClients" + ".*." + "url" == "network.websocketClients.*.url"
  {
  }

  lemma NapcatTexts()
    ensures EMPTY_EQUIVALENCE_RULES[0].path == "musicSignUrl"
    ensures EMPTY_EQUIVALENCE_RULES[1].path == "network" + "." + "httpServers" + ".*." + "token"
    ensures EMPTY_EQUIVALENCE_RULES[2].path == "network" + "." + "httpSseServers" + ".*." + "token"
    ensures EMPTY_EQUIVALENCE_RULES[3].path == "network" + "." + "httpClients" + ".*." + "token"
    ensures EMPTY_EQUIVALENCE_RULES[4].path == "network" + "." + "httpClients" + ".*." + "url"
    ensures EMPTY_EQUIVALENCE_RULES[5].path == "network" + "." + "websocketServers" + ".*." + "token"
    ensures EMPTY_EQUIVALENCE_RULES[6].path == "network" + "." + "websocketClients" + ".*." + "token"
    ensures EMPTY_EQUIVALENCE_RULES[7].path == "network" + "." + "websocketClients" + ".*." + "url"
  {
    Text1();
    Text2();
    Text3();
    Text4();
    Text5();
    Text6();
    Text7();
  }

  lemma SnowlumaRulesCover(p: Path)
    requires CleanPath(p)
    ensures PatternFor(SnowLuma, Dotted(p)) <==> SnowlumaPosition(p)
  {
    hide PathMatch, Dotted, IsField;
    OneSegment(p, "musicSignUrl");
    OneSegment(p, "statusCommand");
    FourSegments(p, "networks", "httpServers", "accessToken");
    FourSegments(p, "networks", "httpClients", "accessToken");
    FourSegments(p, "networks", "httpClients", "url");
    FourSegments(p, "networks", "wsServers", "accessToken");
    FourSegments(p, "networks", "wsClients", "accessToken");
    FourSegments(p, "networks", "wsClients", "url");
    SnowlumaPatterns(Dotted(p));
  }

  lemma SnowlumaPatterns(q: string)
    ensures PatternFor(SnowLuma, q) <==>
      || PathMatch("musicSignUrl", q)
      || PathMatch("statusCommand", q)
      || PathMatch("networks" + "." + "httpServers" + ".*." + "accessToken", q)
      || PathMatch("networks" + "." + "httpClients" + ".*." + "accessToken", q)
      || PathMatch("networks" + "." + "httpClients" + ".*." + "url", q)
      || PathMatch("networks" + "." + "wsServers" + ".*." + "accessToken", q)
      || PathMatch("networks" + "." + "wsClients" + ".*." + "accessToken", q)
      || PathMatch("networks" + "." + "wsClients" + ".*." + "url", q)
  {
    hide PathMatch, ByPlace;
    BackendsByPlace();
    RulesByPlace(EMPTY_EQUIVALENCE_RULES, SnowLuma, q);
    SnowlumaTexts();
  }

  lemma Text10()
    ensures "networks" + "." + "httpServers" + ".*." + "accessToken" == "networks.httpServers.*.accessToken"
  {
  }

  lemma Text11()
    ensures "networks" + "." + "httpClients" + ".*." + "accessToken" == "networks.httpClients.*.accessToken"
  {
  }

  lemma Text12()
    ensures "networks" + "." + "httpClients" + ".*." + "url" == "networks.httpClients.*.url"
  {
  }

  lemma Text13()
    ensures "networks" + "." + "wsServers" + ".*." + "accessToken" == "networks.wsServers.*.accessToken"
  {
  }

  lemma Text14()
    ensures "networks" + "." + "wsClients" + ".*." + "accessToken" == "networks.wsClients.*.accessToken"
  {
  }

  lemma Text15()
    ensures "networks" + "." + "wsClients" + ".*." + "url" == "networks.wsClients.*.url"
  {
  }

  lemma SnowlumaTexts()
    ensures EMPTY_EQUIVALENCE_RULES[8].path == "musicSignUrl"
    ensures EMPTY_EQUIVALENCE_RULES[9].path == "statusCommand"
    ensures EMPTY_EQUIVALENCE_RULES[10].path == "networks" + "." + "httpServers" + ".*." + "accessToken"
    ensures EMPTY_EQUIVALENCE_RULES[11].path == "networks" + "." + "httpClients" + ".*." + "accessToken"
    ensures EMPTY_EQUIVALENCE_RULES[12].path == "networks" + "." + "httpClients" + ".*." + "url"
    ensures EMPTY_EQUIVALENCE_RULES[13].path == "networks" + "." + "wsServers" + ".*." + "accessToken"
    ensures EMPTY_EQUIVALENCE_RULES[14].path == "networks" + "." + "wsClients" + ".*." + "accessToken"
    ensures EMPTY_EQUIVALENCE_RULES[15].path == "networks" + "." + "wsClients" + ".*." + "url"
  {
    Text10();
    Text11();
    Text12();
    Text13();
    Text14();
    Text15();
  }

  /** The name of the one file of a bot the rules of its backend are for. */
  function MainFile(backend: Backend, id: string): string {
    match backend case NapCat => "onebot11_" + id + ".json" case SnowLuma => "onebot_" + id + ".json"
  }

  lemma RulesOfBackend(backend: Backend, file: string, path: string)
    ensures RuleFor(FileContext(backend, file), path) <==>
      PatternFor(backend, path) && WildcardMatch(FilePattern(backend), file)
  {
    hide PathMatch, WildcardMatch, EMPTY_EQUIVALENCE_RULES;
    FilesByBackend();
    var rs := EMPTY_EQUIVALENCE_RULES;
    forall r | r in rs ensures r.file == FilePattern(r.backend) {
      var i :| 0 <= i < |rs| && rs[i] == r;
    }
  }

  function FilePattern(backend: Backend): string {
    if backend == NapCat then "onebot11_*.json" else "onebot_*.json"
  }

  lemma FilesByBackend()
    ensures forall i | 0 <= i < |EMPTY_EQUIVALENCE_RULES| ::
      EMPTY_EQUIVALENCE_RULES[i].file == FilePattern(EMPTY_EQUIVALENCE_RULES[i].backend)
  {
  }

  lemma DerivedNames(id: string, c: BotConfig, o: Output)
    requires o in Outputs(id, c)
    ensures WildcardMatch(FilePattern(c.bot.backend), o.file)
      <==> o.file == MainFile(c.bot.backend, id)
  {
    hide WildcardMatch, NapcatOnebot, NapcatOwn, SnowlumaOnebot;
    MainFileNames(id, o.file);
    assert ("onebot11_" + id + ".json")[|"onebot11_" + id|..] == ".json";
    assert ("onebot_" + id + ".json")[|"onebot_" + id|..] == ".json";
    assert ("napcat_" + id + ".json")[0] == 'n' && "onebot11_"[0] == 'o';
    assert "onebot11_" <= ("onebot11_" + (id + ".json")) == "onebot11_" + id + ".json";
    assert "onebot_" <= ("onebot_" + (id + ".json")) == "onebot_" + id + ".json";
  }

  /** In every derived file, at every position whose keys have no dots, two different values pass for
      equal exactly when both are empty and the position is one of those listed. */
  lemma AllowedIff(id: string, c: BotConfig, o: Output, p: Path, x: Json, y: Json)
    requires o in Outputs(id, c) && CleanPath(p)
    ensures EmptyEquivalenceAllowed(FileContext(c.bot.backend, o.file), Dotted(p), x, y)
      <==> Hollow(x) && Hollow(y) && MayBeEmpty(c.bot.backend, id, o.file, p)
  {
    hide Outputs, PatternFor, RuleFor, WildcardMatch, Dotted, NapcatPosition, SnowlumaPosition;
    RulesOfBackend(c.bot.backend, o.file, Dotted(p));
    DerivedNames(id, c, o);
    if c.bot.backend == NapCat {
      NapcatRulesCover(p);
    } else {
      SnowlumaRulesCover(p);
    }
  }

  // ---------------------------------------------------------------- documents that differ by empty values only

  /** Same shape and keys, equal leaves but for empty values where they are allowed.  Positions inside a
      list are all taken for its first, since no rule tells them apart. */
  predicate Similar(backend: Backend, id: string, file: string, at: Path, e: Json, a: Json)
    decreases e
  {
    match (e, a)
    case (Obj(exp), Obj(act)) =>
      exp.Keys == act.Keys && forall k | k in exp :: Similar(backend, id, file, at + [Key(k)], exp[k], act[k])
    case (Arr(exp), Arr(act)) =>
      |exp| == |act| && forall i | 0 <= i < |exp| :: Similar(backend, id, file, at + [Index(0)], exp[i], act[i])
    case _ => e == a || (Hollow(e) && Hollow(a) && CleanPath(at) && MayBeEmpty(backend, id, file, at))
  }

  lemma {:induction false} SimilarReflexive(backend: Backend, id: string, file: string, at: Path, e: Json)
    ensures Similar(backend, id, file, at, e, e)
    decreases e
  {
    match e {
      case Obj(m) =>
        forall k | k in m ensures Similar(backend, id, file, at + [Key(k)], m[k], m[k]) {
          SimilarReflexive(backend, id, file, at + [Key(k)], m[k]);
        }
      case Arr(xs) =>
        forall i | 0 <= i < |xs| ensures Similar(backend, id, file, at + [Index(0)], xs[i], xs[i]) {
          SimilarReflexive(backend, id, file, at + [Index(0)], xs[i]);
        }
      case _ =>
    }
  }

  /** The same position but for the places in lists. */
  predicate Twins(p: Path, q: Path) {
    |p| == |q| && forall i | 0 <= i < |p| :: p[i] == q[i] || (p[i].Index? && q[i].Index?)
  }

  lemma TwinsAllowed(backend: Backend, id: string, file: string, p: Path, q: Path)
    requires Twins(p, q)
    ensures CleanPath(p) <==> CleanPath(q)
    ensures MayBeEmpty(backend, id, file, p) <==> MayBeEmpty(backend, id, file, q)
  {
    hide Decimal, NapcatPosition, SnowlumaPosition;
    TwinPositions(p, q);
    forall i | 0 <= i < |p| ensures CleanText(SegmentText(p[i])) <==> CleanText(SegmentText(q[i])) {
      IndexIsClean(p[i]);
      IndexIsClean(q[i]);
    }
  }

  lemma TwinPositions(p: Path, q: Path)
    requires Twins(p, q)
    ensures NapcatPosition(p) <==> NapcatPosition(q)
    ensures SnowlumaPosition(p) <==> SnowlumaPosition(q)
  {
    if |p| == 1 {
      assert p == [p[0]] && q == [q[0]];
    }
  }

  lemma IndexIsClean(s: Segment)
    ensures s.Index? ==> CleanText(SegmentText(s))
  {
    if s.Index? {
      assert forall i | 0 <= i < |Decimal(s.pos)| :: IsDigit(Decimal(s.pos)[i]);
    }
  }

  lemma {:induction false} SimilarIsAlike(id: string, c: BotConfig, o: Output, at: Path, at': Path, e: Json, a: Json)
    requires o in Outputs(id, c) && Twins(at, at') && Similar(c.bot.backend, id, o.file, at', e, a)
    ensures Alike(FileContext(c.bot.backend, o.file), at, e, a)
    decreases e
  {
    hide Outputs, MayBeEmpty, Dotted, EmptyEquivalenceAllowed, EMPTY_EQUIVALENCE_RULES;
    match (e, a) {
      case (Obj(exp), Obj(act)) =>
        forall k | k in exp ensures Alike(FileContext(c.bot.backend, o.file), at + [Key(k)], exp[k], act[k]) {
          SimilarIsAlike(id, c, o, at + [Key(k)], at' + [Key(k)], exp[k], act[k]);
        }
      case (Arr(exp), Arr(act)) =>
        forall i: nat | i < |exp| ensures Alike(FileContext(c.bot.backend, o.file), at + [Index(i)], exp[i], act[i]) {
          SimilarIsAlike(id, c, o, at + [Index(i)], at' + [Index(0)], exp[i], act[i]);
        }
      case _ =>
        if e != a {
          TwinsAllowed(c.bot.backend, id, o.file, at, at');
          AllowedIff(id, c, o, at, e, a);
        }
    }
  }

  /** Every key of the document is fit for a dotted string. */
  predicate CleanKeys(v: Json) {
    match v
    case Obj(m) => forall k | k in m :: CleanText(k) && CleanKeys(m[k])
    case Arr(xs) => forall i | 0 <= i < |xs| :: CleanKeys(xs[i])
    case _ => true
  }

  lemma {:induction false} AlikeIsSimilar(id: string, c: BotConfig, o: Output, at: Path, at': Path, e: Json, a: Json)
    requires o in Outputs(id, c) && Twins(at, at') && CleanPath(at) && CleanKeys(e)
    requires Alike(FileContext(c.bot.backend, o.file), at, e, a)
    ensures Similar(c.bot.backend, id, o.file, at', e, a)
    decreases e
  {
    hide Outputs, MayBeEmpty, Dotted, EmptyEquivalenceAllowed, EMPTY_EQUIVALENCE_RULES;
    match (e, a) {
      case (Obj(exp), Obj(act)) =>
        forall k | k in exp ensures Similar(c.bot.backend, id, o.file, at' + [Key(k)], exp[k], act[k]) {
          AlikeIsSimilar(id, c, o, at + [Key(k)], at' + [Key(k)], exp[k], act[k]);
        }
      case (Arr(exp), Arr(act)) =>
        forall i | 0 <= i < |exp| ensures Similar(c.bot.backend, id, o.file, at' + [Index(0)], exp[i], act[i]) {
          IndexIsClean(Index(i));
          AlikeIsSimilar(id, c, o, at + [Index(i)], at' + [Index(0)], exp[i], act[i]);
        }
      case _ =>
        if e != a {
          TwinsAllowed(c.bot.backend, id, o.file, at, at');
          AllowedIff(id, c, o, at, e, a);
        }
    }
  }

  // ---------------------------------------------------------------- through the normal form

  lemma NameIsNotAllowed(backend: Backend, id: string, file: string, at: Path)
    ensures !MayBeEmpty(backend, id, file, at + [Key("name")])
  {
    var p := at + [Key("name")];
    assert p[|p| - 1] == Key("name");
  }

  /** Similar elements sort alike. */
  lemma SimilarSortKey(backend: Backend, id: string, file: string, at: Path, x: Json, y: Json)
    requires Similar(backend, id, file, at, x, y)
    ensures SortKey(x) == SortKey(y)
  {
    hide MayBeEmpty;
    if x.Obj? && y.Obj? && "name" in x.fields {
      NameIsNotAllowed(backend, id, file, at);
      assert Similar(backend, id, file, at + [Key("name")], x.fields["name"], y.fields["name"]);
    }
  }

  predicate AllSimilar(backend: Backend, id: string, file: string, at: Path, xs: seq<Json>, ys: seq<Json>) {
    |xs| == |ys| && forall i | 0 <= i < |xs| :: Similar(backend, id, file, at, xs[i], ys[i])
  }

  lemma ConsSimilar(backend: Backend, id: string, file: string, at: Path, x: Json, y: Json, xs: seq<Json>, ys: seq<Json>)
    requires Similar(backend, id, file, at, x, y) && AllSimilar(backend, id, file, at, xs, ys)
    ensures AllSimilar(backend, id, file, at, [x] + xs, [y] + ys)
  {
    hide Similar;
  }

  lemma TailSimilar(backend: Backend, id: string, file: string, at: Path, xs: seq<Json>, ys: seq<Json>)
    requires AllSimilar(backend, id, file, at, xs, ys) && xs != []
    ensures Similar(backend, id, file, at, xs[0], ys[0]) && AllSimilar(backend, id, file, at, xs[1..], ys[1..])
  {
    hide Similar;
  }

  lemma {:induction false} InsertSimilar(backend: Backend, id: string, file: string, at: Path, x: Json, y: Json,
                                         xs: seq<Json>, ys: seq<Json>)
    requires Similar(backend, id, file, at, x, y) && AllSimilar(backend, id, file, at, xs, ys)
    ensures AllSimilar(backend, id, file, at, Insert(x, xs), Insert(y, ys))
    decreases |xs|
  {
    hide Similar, SortKey, StrLe;
    SimilarSortKey(backend, id, file, at, x, y);
    ConsSimilar(backend, id, file, at, x, y, xs, ys);
    if xs != [] {
      TailSimilar(backend, id, file, at, xs, ys);
      SimilarSortKey(backend, id, file, at, xs[0], ys[0]);
      InsertSimilar(backend, id, file, at, x, y, xs[1..], ys[1..]);
      ConsSimilar(backend, id, file, at, xs[0], ys[0], Insert(x, xs[1..]), Insert(y, ys[1..]));
    }
  }

  lemma {:induction false} SortSimilar(backend: Backend, id: string, file: string, at: Path, xs: seq<Json>, ys: seq<Json>)
    requires AllSimilar(backend, id, file, at, xs, ys)
    ensures AllSimilar(backend, id, file, at, SortByName(xs), SortByName(ys))
    decreases |xs|
  {
    hide Similar, Insert;
    if xs != [] {
      SortSimilar(backend, id, file, at, xs[1..], ys[1..]);
      InsertSimilar(backend, id, file, at, xs[0], ys[0], SortByName(xs[1..]), SortByName(ys[1..]));
    }
  }

  lemma HollowNorm(v: Json)
    ensures Hollow(v) ==> Norm(v) == v
    ensures v.Obj? <==> Norm(v).Obj?
    ensures v.Arr? <==> Norm(v).Arr?
  {
  }

  lemma SortHollow(key: string, v: Json)
    requires Hollow(v)
    ensures NormField(key, v) == v
  {
    HollowNorm(v);
  }

  lemma {:induction false} NormSimilar(backend: Backend, id: string, file: string, at: Path, e: Json, a: Json)
    requires Similar(backend, id, file, at, e, a)
    ensures Similar(backend, id, file, at, Norm(e), Norm(a))
    decreases e, 0
  {
    match (e, a) {
      case (Obj(exp), Obj(act)) =>
        forall k | k in exp ensures Similar(backend, id, file, at + [Key(k)], NormField(k, exp[k]), NormField(k, act[k])) {
          NormFieldSimilar(backend, id, file, at + [Key(k)], k, exp[k], act[k]);
        }
      case (Arr(exp), Arr(act)) =>
        forall i | 0 <= i < |exp| ensures Similar(backend, id, file, at + [Index(0)], Norm(exp[i]), Norm(act[i])) {
          NormSimilar(backend, id, file, at + [Index(0)], exp[i], act[i]);
        }
      case _ =>
        LeavesStaySimilar(backend, id, file, at, e, a);
    }
  }

  lemma LeavesStaySimilar(backend: Backend, id: string, file: string, at: Path, e: Json, a: Json)
    requires Similar(backend, id, file, at, e, a) && !SameContainer(e, a)
    ensures Similar(backend, id, file, at, Norm(e), Norm(a))
  {
    HollowNorm(e);
    HollowNorm(a);
  }

  lemma {:induction false} NormFieldSimilar(backend: Backend, id: string, file: string, at: Path, k: string, e: Json, a: Json)
    requires Similar(backend, id, file, at, e, a)
    ensures Similar(backend, id, file, at, NormField(k, e), NormField(k, a))
    decreases e, 1
  {
    hide Norm, MayBeEmpty;
    NormSimilar(backend, id, file, at, e, a);
    HollowNorm(e);
    HollowNorm(a);
    if e.Arr? && a.Arr? {
      SortSimilar(backend, id, file, at + [Index(0)], Norm(e).items, Norm(a).items);
    } else if e != a && !SameContainer(e, a) {
      SortHollow(k, e);
      SortHollow(k, a);
    }
  }

  // ---------------------------------------------------------------- the report

  ghost predicate NoEntries(c: BotConfig, o: Output, files: DerivedFiles) {
    forall d :: !FileEntry(c.bot.backend, o, files, d)
  }

  lemma ConflictHasEntry(c: BotConfig, o: Output, files: DerivedFiles, p: Path) returns (d: DriftEntry)
    requires o.file in files
    requires Conflict(FileContext(c.bot.backend, o.file), [], Norm(o.payload), Norm(files[o.file]), p)
    ensures FileEntry(c.bot.backend, o, files, d)
  {
    hide Norm, Conflict;
    var ctx, e, a := FileContext(c.bot.backend, o.file), Norm(o.payload), Norm(files[o.file]);
    var n := TopmostAbove(ctx, [], e, a, p);
    d := EntryAt(ctx, [], e, a, p[..n]);
    RootEntry(ctx, e, a, d);
  }

  lemma NoEntriesIffAlike(c: BotConfig, o: Output, files: DerivedFiles)
    requires o.file in files
    ensures NoEntries(c, o, files) <==>
      Alike(FileContext(c.bot.backend, o.file), [], Norm(o.payload), Norm(files[o.file]))
  {
    hide Norm, Alike, Conflict;
    var ctx, e, a := FileContext(c.bot.backend, o.file), Norm(o.payload), Norm(files[o.file]);
    if NoEntries(c, o, files) {
      forall p: Path ensures !Conflict(ctx, [], e, a, p) {
        if Conflict(ctx, [], e, a, p) {
          var d := ConflictHasEntry(c, o, files, p);
        }
      }
      NoConflictAlike(ctx, [], e, a);
    }
    if Alike(ctx, [], e, a) {
      forall d ensures !FileEntry(c.bot.backend, o, files, d) {
        AlikeNoConflict(ctx, [], e, a, d.at);
        RootEntry(ctx, e, a, d);
      }
    }
  }

  lemma CleanReportIff(c: BotConfig, outputs: seq<Output>, files: DerivedFiles, added: seq<DriftEntry>, modified: seq<DriftEntry>)
    requires Report(c.bot.backend, outputs, files, added, modified)
    ensures added == [] && modified == [] <==> forall o | o in outputs :: NoEntries(c, o, files)
  {
    hide FileEntry, Norm, AddedSide;
    if added == [] && modified == [] {
      forall o, d | o in outputs ensures !FileEntry(c.bot.backend, o, files, d) {
        assert d !in added && d !in modified;
      }
    }
    if forall o | o in outputs :: NoEntries(c, o, files) {
      EmptyIfNothingIn(added);
      EmptyIfNothingIn(modified);
    }
  }

  /** Files that differ from what is rendered by empty values alone, where they are allowed, give a clean
      report; and nothing else does, as far as keys are fit for dotted strings. */
  lemma CleanReportIffSimilar(id: string, c: BotConfig, files: DerivedFiles, added: seq<DriftEntry>, modified: seq<DriftEntry>)
    requires Report(c.bot.backend, Outputs(id, c), files, added, modified)
    ensures (forall o | o in Outputs(id, c) && o.file in files :: Similar(c.bot.backend, id, o.file, [], o.payload, files[o.file]))
      ==> added == [] && modified == []
    ensures added == [] && modified == [] ==> forall o | o in Outputs(id, c) && o.file in files && CleanKeys(Norm(o.payload)) ::
      Similar(c.bot.backend, id, o.file, [], Norm(o.payload), Norm(files[o.file]))
  {
    hide Outputs, Norm, Report, NoEntries, Similar, CleanKeys;
    var outputs := Outputs(id, c);
    CleanReportIff(c, outputs, files, added, modified);
    forall o | o in outputs && o.file in files && Similar(c.bot.backend, id, o.file, [], o.payload, files[o.file])
      ensures NoEntries(c, o, files)
    {
      NormSimilar(c.bot.backend, id, o.file, [], o.payload, files[o.file]);
      SimilarIsAlike(id, c, o, [], [], Norm(o.payload), Norm(files[o.file]));
      NoEntriesIffAlike(c, o, files);
    }
    forall o | o in outputs && o.file !in files ensures NoEntries(c, o, files) {
      MissingFile(c, o, files);
    }
    forall o | o in outputs && o.file in files && CleanKeys(Norm(o.payload)) && NoEntries(c, o, files)
      ensures Similar(c.bot.backend, id, o.file, [], Norm(o.payload), Norm(files[o.file]))
    {
      NoEntriesIffAlike(c, o, files);
      AlikeIsSimilar(id, c, o, [], [], Norm(o.payload), Norm(files[o.file]));
    }
  }

  lemma MissingFile(c: BotConfig, o: Output, files: DerivedFiles)
    requires o.file !in files
    ensures NoEntries(c, o, files)
  {
  }

  /** The document with another value at a position. */
  function Put(v: Json, p: Path, w: Json): Json
    requires At(v, p).Some?
    decreases |p|
  {
    if p == [] then w
    else
      match v
      case Obj(m) => Obj(m[p[0].name := Put(m[p[0].name], p[1..], w)])
      case Arr(xs) => Arr(xs[p[0].pos := Put(xs[p[0].pos], p[1..], w)])
      case _ => v
  }

  lemma {:induction false} PutIsSimilar(backend: Backend, id: string, file: string, at: Path, at': Path, v: Json, p: Path, w: Json)
    requires At(v, p).Some? && Hollow(At(v, p).value) && Hollow(w) && Twins(at + p, at' + p) && |at| == |at'|
    requires CleanPath(at + p) && MayBeEmpty(backend, id, file, at + p)
    ensures Similar(backend, id, file, at', v, Put(v, p, w))
    decreases |p|
  {
    hide MayBeEmpty, CleanText, Twins, CleanPath, Hollow;
    if p == [] {
      assert at + [] == at && at' + [] == at';
      TwinsAllowed(backend, id, file, at, at');
      HollowPair(backend, id, file, at', v, w);
    } else if v.Obj? {
      var k := p[0].name;
      assert at + p == at + [p[0]] + p[1..] && at' + p == at' + [p[0]] + p[1..];
      PutIsSimilar(backend, id, file, at + [p[0]], at' + [p[0]], v.fields[k], p[1..], w);
      forall j | j in v.fields && j != k ensures Similar(backend, id, file, at' + [Key(j)], v.fields[j], v.fields[j]) {
        SimilarReflexive(backend, id, file, at' + [Key(j)], v.fields[j]);
      }
    } else {
      var k := p[0].pos;
      assert at + p == at + [p[0]] + p[1..] && at' + p == at' + [p[0]] + p[1..];
      var first := at' + [Index(0)];
      TwinsThroughFirst(at, at', p);
      PutIsSimilar(backend, id, file, at + [p[0]], first, v.items[k], p[1..], w);
      forall j | 0 <= j < |v.items| && j != k ensures Similar(backend, id, file, first, v.items[j], v.items[j]) {
        SimilarReflexive(backend, id, file, first, v.items[j]);
      }
    }
  }

  lemma TwinsThroughFirst(at: Path, at': Path, p: Path)
    requires Twins(at + p, at' + p) && |at| == |at'| && p != [] && p[0].Index?
    ensures Twins(at + [p[0]] + p[1..], at' + [Index(0)] + p[1..])
  {
    var x, y := at + [p[0]] + p[1..], at' + [Index(0)] + p[1..];
    forall i | 0 <= i < |x| ensures x[i] == y[i] || (x[i].Index? && y[i].Index?) {
      assert x[i] == (at + p)[i] && (i != |at| ==> y[i] == (at' + p)[i]);
    }
  }

  lemma HollowPair(backend: Backend, id: string, file: string, at: Path, x: Json, y: Json)
    requires Hollow(x) && Hollow(y) && CleanPath(at) && MayBeEmpty(backend, id, file, at)
    ensures Similar(backend, id, file, at, x, y)
  {
  }

  /** The files as rendered, but for one empty value that another empty value stands for. */
  ghost predicate OneEmptyPair(id: string, c: BotConfig, o: Output, p: Path, w: Json, files: DerivedFiles) {
    && o in Outputs(id, c) && CleanPath(p) && MayBeEmpty(c.bot.backend, id, o.file, p)
    && At(o.payload, p).Some? && Hollow(At(o.payload, p).value) && Hollow(w)
    && forall x | x in Outputs(id, c) && x.file in files ::
         files[x.file] == if x.file == o.file then Put(o.payload, p, w) else x.payload
  }

  /** Such a pair alone is no drift. */
  lemma EmptyPairIsNotDrift(id: string, c: BotConfig, o: Output, p: Path, w: Json, files: DerivedFiles,
                            added: seq<DriftEntry>, modified: seq<DriftEntry>)
    requires OneEmptyPair(id, c, o, p, w, files) && Report(c.bot.backend, Outputs(id, c), files, added, modified)
    ensures added == [] && modified == []
  {
    hide Outputs, Report, Similar, MayBeEmpty, Put, Norm;
    OutputsWellFormed(id, c);
    forall x | x in Outputs(id, c) && x.file in files
      ensures Similar(c.bot.backend, id, x.file, [], x.payload, files[x.file])
    {
      if x.file == o.file {
        assert x == o && [] + p == p;
        PutIsSimilar(c.bot.backend, id, o.file, [], [], o.payload, p, w);
      } else {
        SimilarReflexive(c.bot.backend, id, x.file, [], x.payload);
      }
    }
    CleanReportIffSimilar(id, c, files, added, modified);
  }
}
