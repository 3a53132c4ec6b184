/** When a migration changes a document and records no rule, exactly. */
module BotMigrationSilent {
  import opened Common
  import opened JsonModel
  import opened BotCodec
  import opened BotMigration
  import opened BotMigrationTheorems

  // ---------------------------------------------------------------- when a part records nothing

  lemma {:induction false} NoRuleIffNoneMissing(prefix: string, keys: seq<string>, missing: string -> bool)
    ensures MissingRules(prefix, keys, missing) == [] <==> forall k | k in keys :: !missing(k)
  {
    if keys != [] {
      var n := |keys| - 1;
      NoRuleIffNoneMissing(prefix, keys[..n], missing);
      assert keys == keys[..n] + [keys[n]];
    }
  }

  /** A list of URLs that names none. */
  predicate NamesNoUrl(urls: seq<Json>) {
    forall i | 0 <= i < |urls| :: urls[i].Str? ==> Blank(urls[i].s)
  }

  lemma {:induction false} NoClientIffNoUrl(section: Json, urls: seq<Json>, client: (Json, nat, string) -> Json)
    ensures ClientsFrom(section, urls, client) == [] <==> NamesNoUrl(urls)
  {
    if urls != [] {
      var n := |urls| - 1;
      NoClientIffNoUrl(section, urls[..n], client);
      assert NamesNoUrl(urls) <==> NamesNoUrl(urls[..n]) && (urls[n].Str? ==> Blank(urls[n].s));
    }
  }

  /** Old sections that say nothing: no server of theirs is enabled or named, no URL is listed. */
  predicate LegacySaysNothing(c: Fields) {
    && ("http" in c ==> !Meaningful(c["http"]) && NamesNoUrl(UrlList(c["http"], "postUrls")))
    && ("ws" in c ==> !Meaningful(c["ws"]))
    && ("reverseWs" in c ==> NamesNoUrl(UrlList(c["reverseWs"], "urls")))
  }

  predicate ListsThere(c: Fields) {
    forall k | k in ARRAY_KEYS :: k in c && c[k].Arr?
  }

  lemma ConnectRecordsNothingIff(c: Fields)
    ensures ConnectRules(c) == [] <==> ListsThere(c) && LegacySaysNothing(c)
  {
    hide Meaningful, ClientsFrom;
    NoRuleIffNoneMissing("connect.", ARRAY_KEYS, LacksArray(c));
    if "http" in c {
      NoClientIffNoUrl(c["http"], UrlList(c["http"], "postUrls"), LegacyHttpClient);
    }
    if "reverseWs" in c {
      NoClientIffNoUrl(c["reverseWs"], UrlList(c["reverseWs"], "urls"), LegacyWebsocketClient);
    }
    ServerIffMeaningful(c);
  }

  lemma ServerIffMeaningful(c: Fields)
    ensures LegacyOf(c, "http", LegacyHttpServer) == [] <==> "http" in c ==> !Meaningful(c["http"])
    ensures LegacyOf(c, "ws", LegacyWebsocketServer) == [] <==> "ws" in c ==> !Meaningful(c["ws"])
  {
  }

  // ---------------------------------------------------------------- the connect section

  /** What is lost or replaced unrecorded: an old section that says nothing, or a blank URL. */
  predicate HasSilentChange(c: Fields) {
    !(c.Keys !! LEGACY_SECTIONS) || !UrlsSettled(c, URL_KEYS)
  }

  /** A connect section changes without a rule exactly when it has its five lists, its old sections
      say nothing, and there is such a section or a blank client URL. */
  lemma ConnectSilentChangeIff(c: Fields)
    ensures ConnectRules(c) == [] && UrlsMeaning(ConnectMeaning(c)) != c
      <==> ListsThere(c) && LegacySaysNothing(c) && HasSilentChange(c)
  {
    hide ConnectRules, ConnectMeaning, UrlsSettled, FixUrlsUnder, ARRAY_KEYS, LEGACY_SECTIONS, LegacySaysNothing;
    ConnectRecordsNothingIff(c);
    ConnectSettles(c);
    if ListsThere(c) && !HasSilentChange(c) {
      ConnectFixed(c);
      UrlsFixed(c, URL_KEYS);
    }
  }

  // ---------------------------------------------------------------- an entry

  /** Nothing to fill in, no number to parse, and at most a password the secret store refuses. */
  predicate BotQuiet(env: Env, b: Fields) {
    && !NeedsName(b) && !NeedsTarget(b) && "offlineAutoRestart" in b && "backend_type" in b
    && "autoRestartSchedule" in b && !NumericQqid(b)
    && (PASSWORD_KEY in b ==> HasPassword(b) && !PutAccepted(env, b))
  }

  lemma BotRecordsNothingIff(env: Env, b: Fields, index: nat)
    ensures BotRules(env, b, index) == [] <==> BotQuiet(env, b)
    ensures BotQuiet(env, b) ==> BotMeaning(env, b, index) == b
  {
    hide NumericQqid, HasPassword, PutAccepted, BotDefaults, BotDefaultRules, NeedsName, NeedsTarget, PasswordRules,
      MovePassword;
    BotDefaultsRecordNothingIff(b, index);
    PasswordRecordsNothingIff(env, b);
  }

  lemma PasswordRecordsNothingIff(env: Env, b: Fields)
    ensures PasswordRules(env, b) == [] <==> PASSWORD_KEY in b ==> HasPassword(b) && !PutAccepted(env, b)
    ensures PasswordRules(env, b) == [] ==> MovePassword(env, b) == b
  {
    hide HasPassword, PutAccepted;
    if PASSWORD_KEY !in b {
      NoPassword(b);
      assert b - {PASSWORD_KEY} == b;
    }
  }

  lemma BotDefaultsRecordNothingIff(b: Fields, index: nat)
    ensures BotDefaultRules(b) == [] <==>
      !NeedsName(b) && !NeedsTarget(b) && "offlineAutoRestart" in b && "backend_type" in b && "autoRestartSchedule" in b
    ensures BotDefaultRules(b) == [] ==> BotDefaults(b, index) == b
  {
    hide Blank, DEFAULT_SCHEDULE;
  }

  lemma NoPassword(b: Fields)
    requires PASSWORD_KEY !in b
    ensures !HasPassword(b)
  {
  }

  lemma AdvancedRecordsNothingIff(a: Fields)
    ensures AdvancedRules(a) == [] <==> AdvancedSettled(a)
  {
    var bypass := FieldsAt(a, "bypass");
    NoRuleIffNoneMissing("advanced.bypass.", Names(BYPASS_DEFAULTS), LacksKey(bypass));
    NoRuleIffNoneMissing("advanced.", Names(ADVANCED_DEFAULTS), LacksKey(a["bypass" := Null]));
    NoneLackingIff(bypass, BYPASS_DEFAULTS);
    NoneLackingIff(a, ADVANCED_DEFAULTS);
    NoneLackingIff(a["bypass" := Null], ADVANCED_DEFAULTS);
    BypassIsNoDefault(a);
  }

  lemma NoneLackingIff(m: Fields, ds: Defaults)
    ensures (forall k | k in Names(ds) :: !LacksKey(m)(k)) <==> FillSettled(m, ds)
  {
    if forall k | k in Names(ds) :: !LacksKey(m)(k) {
      forall i | 0 <= i < |ds| ensures ds[i].0 in m {
        assert Names(ds)[i] == ds[i].0 && Names(ds)[i] in Names(ds);
        assert !LacksKey(m)(Names(ds)[i]);
      }
    }
  }

  lemma BypassIsNoDefault(a: Fields)
    ensures FillSettled(a["bypass" := Null], ADVANCED_DEFAULTS) <==> FillSettled(a, ADVANCED_DEFAULTS)
  {
  }

  /** An entry no rule speaks of. */
  predicate EntryQuiet(env: Env, m: Fields) {
    && HasObject(m, "bot") && HasObject(m, "connect") && HasObject(m, "advanced")
    && BotQuiet(env, m["bot"].fields) && AdvancedSettled(m["advanced"].fields)
    && ListsThere(m["connect"].fields) && LegacySaysNothing(m["connect"].fields)
  }

  lemma MissingSectionIsRecorded(env: Env, m: Fields, index: nat)
    requires EntryRules(env, m, index) == []
    ensures HasObject(m, "bot") && HasObject(m, "connect") && HasObject(m, "advanced")
  {
    hide ConnectRules, AdvancedRules, BotRules;
    ConnectRecordsNothingIff(FieldsAt(m, "connect"));
    AdvancedRecordsNothingIff(FieldsAt(m, "advanced"));
    BotRecordsNothingIff(env, FieldsAt(m, "bot"), index);
    assert ARRAY_KEYS[0] in ARRAY_KEYS;
  }

  /** An entry records nothing exactly when it is quiet, and it then changes exactly when its connect
      section has an old section or a blank client URL; nothing beside that section changes. */
  lemma EntrySilentChangeIff(env: Env, m: Fields, index: nat)
    ensures EntryRules(env, m, index) == [] <==> EntryQuiet(env, m)
    ensures EntryQuiet(env, m) ==>
      && EntryMeaning(env, m, index) == m["connect" := Obj(UrlsMeaning(ConnectMeaning(m["connect"].fields)))]
      && (EntryMeaning(env, m, index) != m <==> HasSilentChange(m["connect"].fields))
  {
    hide ConnectRules, ConnectMeaning, AdvancedRules, AdvancedMeaning, BotRules, BotMeaning, UrlsMeaning, BotQuiet,
      AdvancedSettled, ListsThere, LegacySaysNothing, HasSilentChange;
    if EntryRules(env, m, index) == [] {
      MissingSectionIsRecorded(env, m, index);
    }
    if HasObject(m, "bot") && HasObject(m, "connect") && HasObject(m, "advanced") {
      var bot, connect, advanced := m["bot"].fields, m["connect"].fields, m["advanced"].fields;
      ConnectRecordsNothingIff(connect);
      ConnectSilentChangeIff(connect);
      AdvancedRecordsNothingIff(advanced);
      BotRecordsNothingIff(env, bot, index);
      if EntryQuiet(env, m) {
        AdvancedFixed(advanced);
        OneSection(m, UrlsMeaning(ConnectMeaning(connect)));
      }
    }
  }

  lemma OneSection(m: Fields, connect: Fields)
    requires HasObject(m, "bot") && HasObject(m, "connect") && HasObject(m, "advanced")
    ensures WithSections(m, m["bot"].fields, connect, m["advanced"].fields) == m["connect" := Obj(connect)]
    ensures m["connect" := Obj(connect)] == m <==> m["connect"].fields == connect
  {
    var r := m["connect" := Obj(connect)];
    assert WithSections(m, m["bot"].fields, connect, m["advanced"].fields) == r;
    if m["connect"].fields == connect {
      assert r == m;
    } else {
      assert r["connect"] != m["connect"];
    }
  }

  // ---------------------------------------------------------------- the root

  /** Of a wrapped root only `bots` counts; every other field is dropped or overwritten, unrecorded. */
  lemma RootKeepsOnlyBots(env: Env, m: Fields, m': Fields)
    requires "bots" in m && "bots" in m' && m["bots"] == m'["bots"]
    ensures Migration(env, Obj(m)) == Migration(env, Obj(m'))
    ensures Migration(env, Obj(m)).Ok? ==>
      Migration(env, Obj(m)).value.payload.Obj? && Migration(env, Obj(m)).value.payload.fields.Keys == {"info", "bots"}
  {
    hide EntryOf, RulesOf, WarningsOf;
  }

  lemma {:induction false} NothingConcatenatedIff<T>(f: (Fields, nat) -> seq<T>, bots: seq<Json>)
    requires AllObjects(bots)
    ensures ConcatEntries(f, bots) == [] <==> forall i: nat | i < |bots| :: f(bots[i].fields, i) == []
  {
    if bots != [] {
      var n := |bots| - 1;
      NothingConcatenatedIff(f, bots[..n]);
      if forall i: nat | i < n :: f(bots[..n][i].fields, i) == [] {
        forall i: nat | i < n ensures f(bots[i].fields, i) == [] {
          assert bots[..n][i] == bots[i];
        }
      }
    }
  }

  /** The root is wrapped, its entries are objects, and none of them has a rule. */
  predicate DocumentQuiet(env: Env, payload: Json) {
    && HasBots(payload) && AllObjects(payload.fields["bots"].items)
    && forall i | 0 <= i < |payload.fields["bots"].items| :: EntryQuiet(env, payload.fields["bots"].items[i].fields)
  }

  predicate HasBots(payload: Json) {
    payload.Obj? && "bots" in payload.fields && payload.fields["bots"].Arr?
  }

  /** A field beside the bots that is not what the migration writes there. */
  predicate RootDiffers(m: Fields) {
    m - {"bots"} != map["info" := Obj(map["configVersion" := Str(COMPAT_VERSION)])]
  }

  predicate SomeEntryDiffers(bots: seq<Json>)
    requires AllObjects(bots)
  {
    exists i | 0 <= i < |bots| :: HasSilentChange(FieldsAt(bots[i].fields, "connect"))
  }

  lemma EntriesSilentChangeIff(env: Env, bots: seq<Json>)
    requires AllObjects(bots)
    ensures ConcatEntries(RulesOf(env), bots) == [] <==> forall i | 0 <= i < |bots| :: EntryQuiet(env, bots[i].fields)
    ensures (forall i | 0 <= i < |bots| :: EntryQuiet(env, bots[i].fields)) ==>
      (MapEntries(EntryOf(env), bots) != bots <==> SomeEntryDiffers(bots))
  {
    hide EntryMeaning, EntryRules, EntryQuiet, HasSilentChange;
    NothingConcatenatedIff(RulesOf(env), bots);
    forall i: nat | i < |bots| ensures RulesOf(env)(bots[i].fields, i) == [] <==> EntryQuiet(env, bots[i].fields) {
      EntrySilentChangeIff(env, bots[i].fields, i);
    }
    if forall i | 0 <= i < |bots| :: EntryQuiet(env, bots[i].fields) {
      forall i: nat | i < |bots|
        ensures MapEntries(EntryOf(env), bots)[i] != bots[i] <==> HasSilentChange(FieldsAt(bots[i].fields, "connect"))
      {
        QuietEntry(env, bots[i].fields, i);
      }
    }
  }

  lemma QuietEntry(env: Env, m: Fields, index: nat)
    requires EntryQuiet(env, m)
    ensures EntryMeaning(env, m, index) != m <==> HasSilentChange(FieldsAt(m, "connect"))
  {
    hide EntryMeaning, EntryRules, HasSilentChange;
    EntrySilentChangeIff(env, m, index);
  }

  predicate ChangesSilently(env: Env, payload: Json) {
    match Migration(env, payload)
    case Ok(m) => m.rules == [] && m.payload != payload
    case Err(_) => false
  }

  predicate DocumentDiffers(payload: Json)
    requires HasBots(payload) && AllObjects(payload.fields["bots"].items)
  {
    RootDiffers(payload.fields) || SomeEntryDiffers(payload.fields["bots"].items)
  }

  /** A whole document is changed without a single rule exactly when it is wrapped, all its entries
      are quiet, and a root field beside the bots is not the current `info` or some entry's connect
      section has an old section or a blank client URL. */
  lemma DocumentSilentChangeIff(env: Env, payload: Json)
    ensures ChangesSilently(env, payload) <==> DocumentQuiet(env, payload) && DocumentDiffers(payload)
  {
    hide EntryOf, RulesOf, WarningsOf, EntryQuiet, SomeEntryDiffers;
    if HasBots(payload) && AllObjects(payload.fields["bots"].items) {
      var bots := payload.fields["bots"].items;
      EntriesSilentChangeIff(env, bots);
      SameRoot(payload.fields, bots, MapEntries(EntryOf(env), bots));
    }
  }

  lemma SameRoot(m: Fields, bots: seq<Json>, bots': seq<Json>)
    requires "bots" in m && m["bots"] == Arr(bots)
    ensures RootPayload(bots') != Obj(m) <==> RootDiffers(m) || bots' != bots
  {
    var r := RootPayload(bots').fields;
    assert r - {"bots"} == map["info" := Obj(map["configVersion" := Str(COMPAT_VERSION)])];
    if !RootDiffers(m) && bots' == bots {
      assert forall k | k in m && k != "bots" :: k in m - {"bots"};
      assert forall k | k in r && k != "bots" :: k in r - {"bots"};
      assert r["bots"] == m["bots"];
      assert r.Keys == m.Keys && forall k | k in r :: r[k] == m[k];
      assert r == m;
    }
  }
}
