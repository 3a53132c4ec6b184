/** Migrating what was already migrated changes nothing, and what migration never touches. */
module BotMigrationTheorems {
  import opened Common
  import opened JsonModel
  import opened BotCodec
  import opened BotMigration

  // ---------------------------------------------------------------- settled sections

  predicate NoBlankUrls(items: seq<Json>) {
    forall i | 0 <= i < |items| :: !BlankUrl(items[i])
  }

  predicate ShapeSettled(c: Fields, keys: seq<string>, gone: set<string>) {
    (forall k | k in keys :: k in c && c[k].Arr?) && c.Keys !! gone
  }

  predicate UrlsSettled(c: Fields, keys: seq<string>) {
    forall k | k in keys && k in c && c[k].Arr? :: NoBlankUrls(c[k].items)
  }

  predicate ConnectSettled(c: Fields) {
    ShapeSettled(c, ARRAY_KEYS, LEGACY_SECTIONS) && UrlsSettled(c, URL_KEYS)
  }

  predicate FillSettled(m: Fields, ds: Defaults) {
    forall i | 0 <= i < |ds| :: ds[i].0 in m
  }

  predicate AdvancedSettled(a: Fields) {
    HasObject(a, "bypass") && FillSettled(a["bypass"].fields, BYPASS_DEFAULTS) && FillSettled(a, ADVANCED_DEFAULTS)
  }

  predicate BotSettled(b: Fields) {
    !NeedsName(b) && !NeedsTarget(b) && !NumericQqid(b) && PASSWORD_KEY !in b
    && "offlineAutoRestart" in b && "backend_type" in b && "autoRestartSchedule" in b
  }

  predicate EntrySettled(m: Fields) {
    HasObject(m, "bot") && HasObject(m, "connect") && HasObject(m, "advanced")
    && BotSettled(m["bot"].fields) && ConnectSettled(m["connect"].fields) && AdvancedSettled(m["advanced"].fields)
  }

  // ---------------------------------------------------------------- a settled section is a fixed point

  lemma ReshapeFixed(c: Fields, keys: seq<string>, gone: set<string>, extra: map<string, seq<Json>>)
    requires ShapeSettled(c, keys, gone) && forall k | k in extra :: extra[k] == []
    ensures Reshape(c, keys, gone, extra) == c
  {
    var r := Reshape(c, keys, gone, extra);
    assert r.Keys == c.Keys;
    forall k | k in c ensures r[k] == c[k] {
      if k in keys {
        assert ItemsAt(c, k) + [] == c[k].items;
      }
    }
  }

  lemma {:induction false} NoMissingRules(prefix: string, keys: seq<string>, missing: string -> bool)
    requires forall k | k in keys :: !missing(k)
    ensures MissingRules(prefix, keys, missing) == []
  {
    if keys != [] {
      var n := |keys| - 1;
      assert keys[n] in keys;
      NoMissingRules(prefix, keys[..n], missing);
    }
  }

  lemma NoLegacy(c: Fields)
    requires c.Keys !! LEGACY_SECTIONS
    ensures forall k | k in LegacyExtras(c) :: LegacyExtras(c)[k] == []
    ensures LegacyOf(c, "http", LegacyHttpServer) == [] && LegacyOf(c, "http", LegacyHttpClients) == []
    ensures LegacyOf(c, "ws", LegacyWebsocketServer) == [] && LegacyOf(c, "reverseWs", LegacyWebsocketClients) == []
  {
    assert "http" in LEGACY_SECTIONS && "ws" in LEGACY_SECTIONS && "reverseWs" in LEGACY_SECTIONS;
  }

  lemma ConnectFixed(c: Fields)
    requires ConnectSettled(c)
    ensures ConnectMeaning(c) == c && ConnectRules(c) == []
  {
    NoLegacy(c);
    ReshapeFixed(c, ARRAY_KEYS, LEGACY_SECTIONS, LegacyExtras(c));
    NoMissingRules("connect.", ARRAY_KEYS, LacksArray(c));
  }

  lemma FixUrlsFixed(items: seq<Json>)
    requires NoBlankUrls(items)
    ensures MapSeq(FixUrl, items) == items
  {
  }

  lemma UrlsFixed(c: Fields, keys: seq<string>)
    requires UrlsSettled(c, keys)
    ensures FixUrlsUnder(c, keys) == c
  {
    forall k | k in c ensures FixUrlsUnder(c, keys)[k] == c[k] {
      if k in keys && c[k].Arr? {
        FixUrlsFixed(c[k].items);
      }
    }
  }

  lemma {:induction false} FillFixed(m: Fields, ds: Defaults)
    requires FillSettled(m, ds)
    ensures Fill(m, ds) == m
  {
    if ds != [] {
      FillFixed(m, ds[..|ds| - 1]);
    }
  }

  lemma AdvancedFixed(a: Fields)
    requires AdvancedSettled(a)
    ensures AdvancedMeaning(a) == a && AdvancedRules(a) == []
  {
    var bypass := FieldsAt(a, "bypass");
    FillFixed(bypass, BYPASS_DEFAULTS);
    assert a["bypass" := Obj(bypass)] == a;
    FillFixed(a, ADVANCED_DEFAULTS);
    NoneLacking(bypass, BYPASS_DEFAULTS);
    NoneLacking(a["bypass" := Null], ADVANCED_DEFAULTS);
    NoMissingRules("advanced.bypass.", Names(BYPASS_DEFAULTS), LacksKey(bypass));
    NoMissingRules("advanced.", Names(ADVANCED_DEFAULTS), LacksKey(a["bypass" := Null]));
  }

  lemma NoneLacking(m: Fields, ds: Defaults)
    requires FillSettled(m, ds)
    ensures forall k | k in Names(ds) :: !LacksKey(m)(k)
  {
  }

  lemma BotFixed(env: Env, b: Fields, index: nat)
    requires BotSettled(b)
    ensures BotMeaning(env, b, index) == b && BotRules(env, b, index) == []
    ensures PasswordWarnings(env, BotDefaults(b, index)) == []
  {
    assert BotDefaults(b, index) == b;
    assert b - {PASSWORD_KEY} == b;
  }

  lemma EntryFixed(env: Env, m: Fields, index: nat)
    requires EntrySettled(m)
    ensures EntryMeaning(env, m, index) == m && EntryRules(env, m, index) == [] && EntryWarnings(env, m, index) == []
  {
    var bot, connect, advanced := FieldsAt(m, "bot"), FieldsAt(m, "connect"), FieldsAt(m, "advanced");
    ConnectFixed(connect);
    UrlsFixed(connect, URL_KEYS);
    AdvancedFixed(advanced);
    BotFixed(env, bot, index);
    SameSections(m);
  }

  lemma SameSections(m: Fields)
    requires HasObject(m, "bot") && HasObject(m, "connect") && HasObject(m, "advanced")
    ensures WithSections(m, FieldsAt(m, "bot"), FieldsAt(m, "connect"), FieldsAt(m, "advanced")) == m
  {
  }

  // ---------------------------------------------------------------- migration settles every section

  lemma ReshapeSettles(c: Fields, keys: seq<string>, gone: set<string>, extra: map<string, seq<Json>>)
    requires forall k | k in keys :: k !in gone
    ensures ShapeSettled(Reshape(c, keys, gone, extra), keys, gone)
  {
  }

  lemma FixUrlSettles(items: seq<Json>)
    ensures NoBlankUrls(MapSeq(FixUrl, items))
  {
    assert !Blank(FALLBACK_URL) by { TrimOfNonBlank(FALLBACK_URL); }
  }

  lemma TrimOfNonBlank(s: string)
    requires s != "" && !IsWhite(s[0])
    ensures Trim(s) != ""
  {
    assert TrimStart(s) == s;
    TrimEndKeepsHead(s);
  }

  lemma {:induction false} TrimEndKeepsHead(s: string)
    requires s != "" && !IsWhite(s[0])
    ensures TrimEnd(s) != ""
  {
    if IsWhite(s[|s| - 1]) {
      assert s[..|s| - 1][0] == s[0];
      TrimEndKeepsHead(s[..|s| - 1]);
    }
  }

  lemma UrlsSettle(c: Fields, keys: seq<string>, arrays: seq<string>, gone: set<string>)
    requires ShapeSettled(c, arrays, gone)
    ensures UrlsSettled(FixUrlsUnder(c, keys), keys) && ShapeSettled(FixUrlsUnder(c, keys), arrays, gone)
  {
    forall k | k in keys && k in c && c[k].Arr? ensures NoBlankUrls(MapSeq(FixUrl, c[k].items)) {
      FixUrlSettles(c[k].items);
    }
  }

  lemma ConnectSettles(c: Fields)
    ensures ConnectSettled(UrlsMeaning(ConnectMeaning(c)))
  {
    assert forall k | k in LEGACY_SECTIONS :: k !in ARRAY_KEYS by { SectionNames(); }
    ReshapeSettles(c, ARRAY_KEYS, LEGACY_SECTIONS, LegacyExtras(c));
    UrlsSettle(ConnectMeaning(c), URL_KEYS, ARRAY_KEYS, LEGACY_SECTIONS);
  }

  lemma FillSettles(m: Fields, ds: Defaults)
    requires DistinctNames(ds)
    ensures FillSettled(Fill(m, ds), ds)
  {
    FillSpec(m, ds);
    forall i | 0 <= i < |ds| ensures ds[i].0 in Fill(m, ds) {
      assert Names(ds)[i] == ds[i].0;
    }
  }

  lemma AdvancedSettles(a: Fields)
    ensures AdvancedSettled(AdvancedMeaning(a))
  {
    DefaultsDistinct();
    var bypass := Fill(FieldsAt(a, "bypass"), BYPASS_DEFAULTS);
    FillSettles(FieldsAt(a, "bypass"), BYPASS_DEFAULTS);
    FillSettles(a["bypass" := Obj(bypass)], ADVANCED_DEFAULTS);
    FillSpec(a["bypass" := Obj(bypass)], ADVANCED_DEFAULTS);
  }

  lemma BotDefaultsSettle(b: Fields, index: nat)
    ensures var r := BotDefaults(b, index);
      !NeedsName(r) && !NeedsTarget(r)
      && "offlineAutoRestart" in r && "backend_type" in r && "autoRestartSchedule" in r
  {
    TrimOfNonBlank("local");
    assert ("bot-" + Decimal(index + 1)) != "";
  }

  /** A bot section settles unless a password the store refused stays in it. */
  lemma BotSettles(env: Env, b: Fields, index: nat)
    requires var filled := BotDefaults(b, index); HasPassword(filled) ==> PutAccepted(env, filled)
    ensures BotSettled(BotMeaning(env, b, index))
  {
    BotDefaultsSettle(b, index);
    var filled := BotDefaults(b, index);
    var moved := MovePassword(env, filled);
    assert PASSWORD_KEY !in moved;
    assert !NeedsName(moved) && !NeedsTarget(moved);
    QqidSettles(moved);
  }

  lemma QqidSettles(b: Fields)
    ensures !NumericQqid(NormalizeQqid(b))
    ensures NormalizeQqid(b).Keys == b.Keys && forall k | k in b && k != "QQID" :: NormalizeQqid(b)[k] == b[k]
  {
  }

  lemma SectionsSettle(m: Fields, bot: Fields, connect: Fields, advanced: Fields)
    requires BotSettled(bot) && ConnectSettled(connect) && AdvancedSettled(advanced)
    ensures EntrySettled(WithSections(m, bot, connect, advanced))
  {
    SectionsAre(m, bot, connect, advanced);
  }

  lemma SectionsAre(m: Fields, bot: Fields, connect: Fields, advanced: Fields)
    ensures var r := WithSections(m, bot, connect, advanced);
      HasObject(r, "bot") && HasObject(r, "connect") && HasObject(r, "advanced")
      && FieldsAt(r, "bot") == bot && FieldsAt(r, "connect") == connect && FieldsAt(r, "advanced") == advanced
  {
  }

  lemma EntrySettles(env: Env, m: Fields, index: nat)
    requires forall k, v :: env.put(k, v)
    ensures EntrySettled(EntryMeaning(env, m, index))
  {
    BotSettles(env, FieldsAt(m, "bot"), index);
    ConnectSettles(FieldsAt(m, "connect"));
    AdvancedSettles(FieldsAt(m, "advanced"));
    SectionsSettle(m, BotMeaning(env, FieldsAt(m, "bot"), index), UrlsMeaning(ConnectMeaning(FieldsAt(m, "connect"))),
                   AdvancedMeaning(FieldsAt(m, "advanced")));
  }

  // ---------------------------------------------------------------- idempotence

  predicate AllSettled(bots: seq<Json>) {
    AllObjects(bots) && forall i | 0 <= i < |bots| :: EntrySettled(bots[i].fields)
  }

  lemma {:induction false} NothingFrom<T>(f: (Fields, nat) -> seq<T>, bots: seq<Json>)
    requires AllObjects(bots) && forall i: nat | i < |bots| :: f(bots[i].fields, i) == []
    ensures ConcatEntries(f, bots) == []
  {
    if bots != [] {
      NothingFrom(f, bots[..|bots| - 1]);
    }
  }

  lemma EntriesFixed(env: Env, bots: seq<Json>)
    requires AllSettled(bots)
    ensures MapEntries(EntryOf(env), bots) == bots
    ensures ConcatEntries(RulesOf(env), bots) == [] && ConcatEntries(WarningsOf(env), bots) == []
  {
    hide EntryMeaning, EntryRules, EntryWarnings;
    forall i: nat | i < |bots|
      ensures EntryOf(env)(bots[i].fields, i) == bots[i].fields
      ensures RulesOf(env)(bots[i].fields, i) == [] && WarningsOf(env)(bots[i].fields, i) == []
    {
      EntryFixed(env, bots[i].fields, i);
    }
    NothingFrom(RulesOf(env), bots);
    NothingFrom(WarningsOf(env), bots);
  }

  lemma RootsOfRoot(bots: seq<Json>)
    ensures Roots(RootPayload(bots)) == Ok((bots, []))
  {
  }

  lemma MigrationOfObjects(env: Env, payload: Json, bots: seq<Json>, rules: seq<string>)
    requires Roots(payload) == Ok((bots, rules)) && AllObjects(bots)
    ensures Migration(env, payload)
      == Ok(Migrated(RootPayload(MapEntries(EntryOf(env), bots)), rules + ConcatEntries(RulesOf(env), bots),
                     ConcatEntries(WarningsOf(env), bots)))
  {
  }

  /** A settled document is a fixed point of the whole migration, whatever the secret store does. */
  lemma SettledIsFixed(env: Env, bots: seq<Json>)
    requires AllSettled(bots)
    ensures Migration(env, RootPayload(bots)) == Ok(Migrated(RootPayload(bots), [], []))
  {
    hide EntryOf, RulesOf, WarningsOf, Roots;
    RootsOfRoot(bots);
    EntriesFixed(env, bots);
    MigrationOfObjects(env, RootPayload(bots), bots, []);
    var none: seq<string> := [];
    assert none + none == none;
  }

  /** With a store that accepts every put, migrating twice is migrating once, and the second run
      applies no rule and raises no warning. */
  lemma MigrationIdempotent(env: Env, payload: Json)
    requires forall k, v :: env.put(k, v)
    ensures Migration(env, payload).Ok? ==>
      var once := Migration(env, payload).value.payload;
      Migration(env, once) == Ok(Migrated(once, [], []))
  {
    hide EntryMeaning, EntrySettled, RulesOf, WarningsOf, Roots, RootPayload;
    var r := Migration(env, payload);
    if r.Ok? {
      var raw := Roots(payload).value.0;
      var bots := MapEntries(EntryOf(env), raw);
      forall i: nat | i < |bots| ensures bots[i].Obj? && EntrySettled(bots[i].fields) {
        EntrySettles(env, raw[i].fields, i);
        assert bots[i] == Obj(EntryOf(env)(raw[i].fields, i));
      }
      SettledIsFixed(env, bots);
    }
  }

  // ---------------------------------------------------------------- conservation

  lemma {:induction false} FillKeeps(m: Fields, ds: Defaults, k: string)
    ensures k in m ==> k in Fill(m, ds) && Fill(m, ds)[k] == m[k]
    ensures k !in m && k !in Names(ds) ==> k !in Fill(m, ds)
  {
    if ds != [] {
      FillKeeps(m, ds[..|ds| - 1], k);
      assert Names(ds) == Names(ds[..|ds| - 1]) + [ds[|ds| - 1].0];
    }
  }

  /** Beside the three sections, an entry's fields are neither changed, added nor dropped. */
  lemma EntryKeepsOtherFields(env: Env, m: Fields, index: nat, k: string)
    requires k != "bot" && k != "connect" && k != "advanced"
    ensures k in EntryMeaning(env, m, index) <==> k in m
    ensures k in m ==> EntryMeaning(env, m, index)[k] == m[k]
  {
  }

  /** A bot field no rule names keeps its value, and a field with a default keeps a present one. */
  lemma BotKeepsFields(env: Env, b: Fields, index: nat, k: string)
    requires k in b && k != "name" && k != "runtime_target" && k != "QQID" && k != PASSWORD_KEY
    ensures k in BotMeaning(env, b, index) && BotMeaning(env, b, index)[k] == b[k]
  {
  }

  /** Everything an advanced section says is kept; only a non-object `bypass` is replaced. */
  lemma AdvancedKeepsFields(a: Fields, k: string)
    requires k in a && k != "bypass"
    ensures k in AdvancedMeaning(a) && AdvancedMeaning(a)[k] == a[k]
  {
    FillKeeps(a["bypass" := Obj(Fill(FieldsAt(a, "bypass"), BYPASS_DEFAULTS))], ADVANCED_DEFAULTS, k);
  }

  /** Current lists keep their entries in front of the legacy ones, up to blank URLs; other
      connect fields are untouched. */
  lemma ConnectKeepsEntries(c: Fields, k: string)
    requires k in c && k !in LEGACY_SECTIONS
    ensures k in ConnectMeaning(c)
    ensures k in ARRAY_KEYS && c[k].Arr? ==> ConnectMeaning(c)[k].Arr? && c[k].items <= ConnectMeaning(c)[k].items
    ensures k !in ARRAY_KEYS ==> ConnectMeaning(c)[k] == c[k]
  {
    assert ConnectMeaning(c)[k] == ReshapedField(c, ARRAY_KEYS, LegacyExtras(c), k);
  }
}
