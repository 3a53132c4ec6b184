/**
 What migration does to the forms a document can have, stated on the documents themselves: the three
 roots and the errors, and every field of the `bot` and `advanced` sections.
 */
module BotMigrationForms {
  import opened Common
  import opened JsonModel
  import opened BotCodec
  import opened BotMigration
  import opened BotMigrationTheorems

  // ---------------------------------------------------------------- the root

  function Wrapped(xs: seq<Json>): Json {
    Obj(map["bots" := Arr(xs)])
  }

  predicate HasSections(m: Fields) {
    "bot" in m && "connect" in m && "advanced" in m
  }

  predicate SomeNoObject(xs: seq<Json>) {
    exists i | 0 <= i < |xs| :: !xs[i].Obj?
  }

  /** `r` is `plain` with one more rule in front. */
  predicate WithRuleInFront(r: Result<Migrated, MigrationError>, plain: Result<Migrated, MigrationError>, rule: string) {
    match (r, plain)
    case (Ok(m), Ok(n)) => m.payload == n.payload && m.warnings == n.warnings && m.rules == [rule] + n.rules
    case (Err(e), Err(f)) => e == f
    case _ => false
  }

  /** Each element of the list becomes the entry of its place, rewritten, and nothing else is there. */
  predicate HoldsEntries(env: Env, payload: Json, xs: seq<Json>) {
    && payload.Obj? && payload.fields.Keys == {"info", "bots"}
    && payload.fields["info"] == Obj(map["configVersion" := Str("v2.1")])
    && payload.fields["bots"].Arr? && |payload.fields["bots"].items| == |xs|
    && forall i | 0 <= i < |xs| ::
         xs[i].Obj? && payload.fields["bots"].items[i] == Obj(EntryMeaning(env, xs[i].fields, i))
  }

  /** A wrapped list: the other fields of the root do not matter. */
  lemma WrappedMigrates(env: Env, m: Fields, xs: seq<Json>)
    requires "bots" in m && m["bots"] == Arr(xs)
    ensures SomeNoObject(xs) ==> Migration(env, Obj(m)) == Err(EntryNotAnObject)
    ensures !SomeNoObject(xs) ==> Migration(env, Obj(m)).Ok? && HoldsEntries(env, Migration(env, Obj(m)).value.payload, xs)
  {
    hide EntryMeaning, RulesOf, WarningsOf;
    if !SomeNoObject(xs) {
      assert AllObjects(xs);
    }
  }

  /** A bare list migrates as the same list wrapped, with a rule of its own in front. */
  lemma ListMigrates(env: Env, xs: seq<Json>)
    ensures WithRuleInFront(Migration(env, Arr(xs)), Migration(env, Wrapped(xs)), "root list -> object with info/bots")
  {
    hide EntryOf, RulesOf, WarningsOf;
    var rules := if AllObjects(xs) then ConcatEntries(RulesOf(env), xs) else [];
    assert [] + rules == rules;
  }

  /** A single bot migrates as the list of it. */
  lemma SingleMigrates(env: Env, m: Fields)
    requires "bots" !in m && HasSections(m)
    ensures WithRuleInFront(Migration(env, Obj(m)), Migration(env, Wrapped([Obj(m)])),
                            "single bot object -> object with info/bots")
  {
    hide EntryOf, RulesOf, WarningsOf;
    assert AllObjects([Obj(m)]);
    var rules := ConcatEntries(RulesOf(env), [Obj(m)]);
    assert [] + rules == rules;
  }

  /** Each error has its form of document. */
  lemma ErrorsByForm(env: Env, v: Json)
    ensures Migration(env, v) == Err(RootNotAnObject) <==> !v.Obj? && !v.Arr?
    ensures Migration(env, v) == Err(BotsNotAList) <==> v.Obj? && "bots" in v.fields && !v.fields["bots"].Arr?
    ensures Migration(env, v) == Err(UnknownRoot) <==> v.Obj? && "bots" !in v.fields && !HasSections(v.fields)
    ensures Migration(env, v) == Err(EntryNotAnObject) <==>
      || (v.Arr? && SomeNoObject(v.items))
      || (v.Obj? && "bots" in v.fields && v.fields["bots"].Arr? && SomeNoObject(v.fields["bots"].items))
  {
    hide EntryOf, RulesOf, WarningsOf;
    if v.Obj? && "bots" !in v.fields && HasSections(v.fields) {
      assert AllObjects([v]);
    }
  }

  lemma {:induction false} FromSomeEntry(f: (Fields, nat) -> seq<string>, bots: seq<Json>, x: string)
    requires AllObjects(bots)
    ensures x in ConcatEntries(f, bots) <==> exists i: nat | i < |bots| :: x in f(bots[i].fields, i)
  {
    if bots != [] {
      var n := |bots| - 1;
      FromSomeEntry(f, bots[..n], x);
      assert forall i: nat | i < n :: bots[..n][i] == bots[i];
    }
  }

  lemma PrefixedIff(index: nat, rules: seq<string>, x: string)
    ensures x in Prefixed(index, rules) <==> exists r :: r in rules && x == "bots[" + Decimal(index) + "]: " + r
  {
    hide Decimal;
    if r :| r in rules && x == "bots[" + Decimal(index) + "]: " + r {
      var i :| 0 <= i < |rules| && rules[i] == r;
      assert Prefixed(index, rules)[i] == x;
    }
  }

  ghost predicate RuleOfEntry(env: Env, xs: seq<Json>, i: nat, x: string)
    requires AllObjects(xs) && i < |xs|
  {
    exists r :: r in EntryRules(env, xs[i].fields, i) && x == "bots[" + Decimal(i) + "]: " + r
  }

  /** The rules of a wrapped document are those of its entries, each with the place of its entry. */
  lemma RulesSayWhere(env: Env, m: Fields, xs: seq<Json>, x: string)
    requires "bots" in m && m["bots"] == Arr(xs) && AllObjects(xs)
    ensures Migration(env, Obj(m)).Ok?
    ensures x in Migration(env, Obj(m)).value.rules <==> exists i: nat | i < |xs| :: RuleOfEntry(env, xs, i, x)
  {
    hide EntryOf, WarningsOf, EntryRules, Decimal, Prefixed;
    FromSomeEntry(RulesOf(env), xs, x);
    forall i: nat | i < |xs| ensures x in RulesOf(env)(xs[i].fields, i) <==> RuleOfEntry(env, xs, i, x) {
      PrefixedIff(i, EntryRules(env, xs[i].fields, i), x);
    }
  }

  // ---------------------------------------------------------------- the bot section

  /** The fields of a migrated `bot` section. */
  lemma BotSectionBecomes(env: Env, b: Fields, index: nat)
    ensures var r := BotMeaning(env, b, index);
      && Lookup(r, "name") == Some(if "name" in b && b["name"] != Str("") then b["name"] else Str("bot-" + Decimal(index + 1)))
      && Lookup(r, "runtime_target")
         == Some(if "runtime_target" in b && !(b["runtime_target"].Str? && Trim(b["runtime_target"].s) == "")
                 then b["runtime_target"] else Str("local"))
      && Lookup(r, "offlineAutoRestart")
         == Some(if "offlineAutoRestart" in b then b["offlineAutoRestart"] else Bool(false))
      && Lookup(r, "backend_type") == Some(if "backend_type" in b then b["backend_type"] else Str("napcat"))
      && Lookup(r, "autoRestartSchedule")
         == Some(if "autoRestartSchedule" in b then b["autoRestartSchedule"]
                 else Obj(map["enable" := Bool(false), "time_unit" := Str("h"), "duration" := Int(6)]))
      && Lookup(r, "snowluma_webui_password_override")
         == (if PasswordStays(env, b) then Some(b["snowluma_webui_password_override"]) else None)
    ensures forall k | k in b && k !in BotMeaning(env, b, index) :: k == "snowluma_webui_password_override"
    ensures forall k | k in BotMeaning(env, b, index) && k !in b ::
      k in {"name", "runtime_target", "offlineAutoRestart", "backend_type", "autoRestartSchedule"}
  {
    hide NumericQqid, BotDefaults, BotId, Decimal;
    var filled := BotDefaults(b, index);
    FilledFields(b, index);
    FilledOthers(b, index);
    FilledPassword(env, b, index);
    QqidSettles(MovePassword(env, filled));
  }

  /** A password is left where it is exactly if there is one and the store refuses it under the bot's id. */
  predicate PasswordStays(env: Env, b: Fields) {
    && "snowluma_webui_password_override" in b && b["snowluma_webui_password_override"].Str?
    && Trim(b["snowluma_webui_password_override"].s) != ""
    && !env.put("bot:" + BotId(env, b) + ":" + "snowluma_webui_password_override", Trim(b["snowluma_webui_password_override"].s))
  }

  lemma FilledFields(b: Fields, index: nat)
    ensures var r := BotDefaults(b, index);
      && Lookup(r, "name") == Some(if "name" in b && b["name"] != Str("") then b["name"] else Str("bot-" + Decimal(index + 1)))
      && Lookup(r, "runtime_target")
         == Some(if "runtime_target" in b && !(b["runtime_target"].Str? && Trim(b["runtime_target"].s) == "")
                 then b["runtime_target"] else Str("local"))
      && Lookup(r, "offlineAutoRestart")
         == Some(if "offlineAutoRestart" in b then b["offlineAutoRestart"] else Bool(false))
      && Lookup(r, "backend_type") == Some(if "backend_type" in b then b["backend_type"] else Str("napcat"))
      && Lookup(r, "autoRestartSchedule")
         == Some(if "autoRestartSchedule" in b then b["autoRestartSchedule"]
                 else Obj(map["enable" := Bool(false), "time_unit" := Str("h"), "duration" := Int(6)]))
  {
    hide Decimal, Trim;
  }

  lemma FilledOthers(b: Fields, index: nat)
    ensures BotDefaults(b, index).Keys
      == b.Keys + {"name", "runtime_target", "offlineAutoRestart", "backend_type", "autoRestartSchedule"}
    ensures Lookup(BotDefaults(b, index), "QQID") == Lookup(b, "QQID")
    ensures Lookup(BotDefaults(b, index), PASSWORD_KEY) == Lookup(b, PASSWORD_KEY)
  {
    hide Decimal, Trim, DEFAULT_SCHEDULE;
    assert |PASSWORD_KEY| == 32;
  }

  lemma FilledPassword(env: Env, b: Fields, index: nat)
    ensures var filled := BotDefaults(b, index); HasPassword(filled) && !PutAccepted(env, filled) <==> PasswordStays(env, b)
  {
    hide BotDefaults, Decimal, Trim, IsWhite;
    FilledOthers(b, index);
    assert BotId(env, BotDefaults(b, index)) == BotId(env, b) by {
      SameId(env, BotDefaults(b, index), b);
    }
    SamePassword(env, BotDefaults(b, index), b);
  }

  lemma SameId(env: Env, b: Fields, b': Fields)
    requires Lookup(b, "QQID") == Lookup(b', "QQID")
    ensures BotId(env, b) == BotId(env, b')
  {
  }

  lemma SamePassword(env: Env, b: Fields, b': Fields)
    requires Lookup(b, PASSWORD_KEY) == Lookup(b', PASSWORD_KEY) && BotId(env, b) == BotId(env, b')
    ensures HasPassword(b) && !PutAccepted(env, b) <==> PasswordStays(env, b')
  {
    hide BotId, Trim;
  }

  /** The id a secret is filed under: the QQID as it is written, or "unknown". */
  lemma SecretsAreFiledUnder(env: Env, b: Fields)
    ensures "QQID" in b && b["QQID"].Str? && b["QQID"].s != "" ==> BotId(env, b) == b["QQID"].s
    ensures "QQID" in b && b["QQID"].Int? && b["QQID"].i >= 0 ==> BotId(env, b) == Decimal(b["QQID"].i)
    ensures "QQID" in b && b["QQID"].Int? && b["QQID"].i < 0 ==> BotId(env, b) == "-" + Decimal(-b["QQID"].i)
    ensures "QQID" !in b || b["QQID"] == Str("") ==> BotId(env, b) == "unknown"
  {
    hide Decimal;
  }

  // ---------------------------------------------------------------- the rules of the bot section

  const MOVED_PASSWORD: string := "bot.snowluma_webui_password_override migrated to secret store"
  const EMPTY_PASSWORD: string := "bot.snowluma_webui_password_override removed (empty legacy default)"

  lemma RuleInIff(condition: bool, rule: string, x: string)
    ensures x in RuleIf(condition, rule) <==> condition && x == rule
  {
  }

  lemma BotRulesAre(env: Env, b: Fields, index: nat, x: string)
    ensures var filled := BotDefaults(b, index);
      x in BotRules(env, b, index) <==>
      || (NeedsName(b) && x == "bot.name default")
      || ("offlineAutoRestart" !in b && x == "bot.offlineAutoRestart default")
      || ("runtime_target" !in b && x == "bot.runtime_target default")
      || ("runtime_target" in b && NeedsTarget(b) && x == "bot.runtime_target normalized")
      || ("backend_type" !in b && x == "bot.backend_type default")
      || ("autoRestartSchedule" !in b && x == "bot.autoRestartSchedule default")
      || (HasPassword(filled) && PutAccepted(env, filled) && x == MOVED_PASSWORD)
      || (PASSWORD_KEY in filled && !HasPassword(filled) && x == EMPTY_PASSWORD)
      || (NumericQqid(MovePassword(env, filled)) && x == "bot.QQID string -> number")
  {
    hide RuleIf, NeedsName, NeedsTarget, BotDefaults, NumericQqid, MovePassword, HasPassword, PutAccepted, PASSWORD_KEY;
    var filled := BotDefaults(b, index);
    RuleInIff(NeedsName(b), "bot.name default", x);
    RuleInIff("offlineAutoRestart" !in b, "bot.offlineAutoRestart default", x);
    RuleInIff("runtime_target" !in b, "bot.runtime_target default", x);
    RuleInIff("runtime_target" in b && NeedsTarget(b), "bot.runtime_target normalized", x);
    RuleInIff("backend_type" !in b, "bot.backend_type default", x);
    RuleInIff("autoRestartSchedule" !in b, "bot.autoRestartSchedule default", x);
    RuleInIff(HasPassword(filled) && PutAccepted(env, filled), MOVED_PASSWORD, x);
    RuleInIff(PASSWORD_KEY in filled && !HasPassword(filled), EMPTY_PASSWORD, x);
    RuleInIff(NumericQqid(MovePassword(env, filled)), "bot.QQID string -> number", x);
  }

  /** No two rules have the same length. */
  lemma RuleLengths()
    ensures |"bot.name default"| == 16 && |"bot.offlineAutoRestart default"| == 30 && |"bot.runtime_target default"| == 26
    ensures |"bot.runtime_target normalized"| == 29 && |"bot.backend_type default"| == 24
    ensures |"bot.autoRestartSchedule default"| == 31 && |MOVED_PASSWORD| == 61 && |EMPTY_PASSWORD| == 67
    ensures |"bot.QQID string -> number"| == 25
  {
  }

  /** A field is changed. */
  predicate Changes(b: Fields, r: Fields, k: string) {
    Lookup(r, k) != Lookup(b, k)
  }

  /** Each rule of a bot section is recorded exactly if what it speaks of has happened. */
  lemma BotRulesSayWhatChanged(env: Env, b: Fields, index: nat)
    ensures var rules, r := BotRules(env, b, index), BotMeaning(env, b, index);
      && ("bot.name default" in rules <==> Changes(b, r, "name"))
      && ("bot.offlineAutoRestart default" in rules <==> Changes(b, r, "offlineAutoRestart"))
      && ("bot.runtime_target default" in rules <==> "runtime_target" !in b)
      && ("bot.runtime_target normalized" in rules <==> "runtime_target" in b && Changes(b, r, "runtime_target"))
      && ("bot.backend_type default" in rules <==> Changes(b, r, "backend_type"))
      && ("bot.autoRestartSchedule default" in rules <==> Changes(b, r, "autoRestartSchedule"))
      && (MOVED_PASSWORD in rules || EMPTY_PASSWORD in rules <==> Changes(b, r, "snowluma_webui_password_override"))
      && ("bot.QQID string -> number" in rules <==> Changes(b, r, "QQID"))
  {
    hide BotRules, BotMeaning, BotDefaults, HasPassword, PutAccepted, NumericQqid, MovePassword, Trim, Decimal, PasswordStays;
    BotSectionBecomes(env, b, index);
    RuleLengths();
    BotRulesAre(env, b, index, "bot.name default");
    BotRulesAre(env, b, index, "bot.offlineAutoRestart default");
    BotRulesAre(env, b, index, "bot.runtime_target default");
    BotRulesAre(env, b, index, "bot.runtime_target normalized");
    BotRulesAre(env, b, index, "bot.backend_type default");
    BotRulesAre(env, b, index, "bot.autoRestartSchedule default");
    BotRulesAre(env, b, index, MOVED_PASSWORD);
    BotRulesAre(env, b, index, EMPTY_PASSWORD);
    BotRulesAre(env, b, index, "bot.QQID string -> number");
    LocalIsNotBlank();
    assert Str("bot-" + Decimal(index + 1)) != Str("") by { assert |"bot-" + Decimal(index + 1)| >= 4; }
    PasswordGoes(env, b, index);
    IdChanges(env, b, index);
  }

  lemma LocalIsNotBlank()
    ensures Trim("local") != ""
  {
    TrimOfNonBlank("local");
  }

  lemma PasswordGoes(env: Env, b: Fields, index: nat)
    ensures var filled := BotDefaults(b, index);
      (HasPassword(filled) && PutAccepted(env, filled)) || (PASSWORD_KEY in filled && !HasPassword(filled))
      <==> PASSWORD_KEY in b && !PasswordStays(env, b)
  {
    hide BotDefaults, PutAccepted, Trim, BotId;
    FilledOthers(b, index);
    FilledPassword(env, b, index);
  }

  /** A number is never a string, so that turning the id into one changes it. */
  lemma IdChanges(env: Env, b: Fields, index: nat)
    ensures NumericQqid(MovePassword(env, BotDefaults(b, index))) <==> Changes(b, BotMeaning(env, b, index), "QQID")
  {
    hide BotDefaults, HasPassword, PutAccepted, ParseU64, Trim;
    FilledOthers(b, index);
    assert |PASSWORD_KEY| == 32;
  }

  // ---------------------------------------------------------------- the advanced section

  /** What a field of the section holds: what it held, or this default. */
  predicate KeptOr(r: Fields, a: Fields, k: string, default: Json) {
    Lookup(r, k) == Some(if k in a then a[k] else default)
  }

  lemma FilledField(m: Fields, ds: Defaults, i: nat)
    requires DistinctNames(ds) && i < |ds|
    ensures KeptOr(Fill(m, ds), m, ds[i].0, ds[i].1)
  {
    FillSpec(m, ds);
  }

  /** The switches of a filled `bypass`. */
  predicate BypassBecomes(r: Fields, b: Fields) {
    && KeptOr(r, b, "hook", Bool(false)) && KeptOr(r, b, "window", Bool(false)) && KeptOr(r, b, "module", Bool(false))
    && KeptOr(r, b, "process", Bool(false)) && KeptOr(r, b, "container", Bool(false)) && KeptOr(r, b, "js", Bool(false))
  }

  lemma BypassFilled(b: Fields)
    ensures BypassBecomes(Fill(b, BYPASS_DEFAULTS), b)
  {
    hide Fill, DistinctNames, KeptOr;
    DefaultsDistinct();
    forall i: nat | i < 6 ensures KeptOr(Fill(b, BYPASS_DEFAULTS), b, BYPASS_DEFAULTS[i].0, BYPASS_DEFAULTS[i].1) {
      FilledField(b, BYPASS_DEFAULTS, i);
    }
    BypassDefaultsAre();
  }

  lemma BypassDefaultsAre()
    ensures |BYPASS_DEFAULTS| == 6
    ensures BYPASS_DEFAULTS[0] == ("hook", Bool(false)) && BYPASS_DEFAULTS[1] == ("window", Bool(false))
    ensures BYPASS_DEFAULTS[2] == ("module", Bool(false)) && BYPASS_DEFAULTS[3] == ("process", Bool(false))
    ensures BYPASS_DEFAULTS[4] == ("container", Bool(false)) && BYPASS_DEFAULTS[5] == ("js", Bool(false))
  {
  }

  /** The fields of a migrated `advanced` section. */
  lemma AdvancedSectionBecomes(a: Fields)
    ensures var r := AdvancedMeaning(a);
      && KeptOr(r, a, "fileLog", Bool(true)) && KeptOr(r, a, "consoleLog", Bool(true))
      && KeptOr(r, a, "fileLogLevel", Str("info")) && KeptOr(r, a, "consoleLogLevel", Str("info"))
      && KeptOr(r, a, "packetBackend", Str("auto")) && KeptOr(r, a, "packetServer", Str(""))
      && KeptOr(r, a, "o3HookMode", Int(1))
      && "bypass" in r && r["bypass"].Obj? && BypassBecomes(r["bypass"].fields, FieldsAt(a, "bypass"))
  {
    hide Fill, DistinctNames, BypassBecomes, BYPASS_DEFAULTS;
    DefaultsDistinct();
    DefaultsAre();
    var bypass := FieldsAt(a, "bypass");
    BypassFilled(bypass);
    var a' := a["bypass" := Obj(Fill(bypass, BYPASS_DEFAULTS))];
    FillSpec(a', ADVANCED_DEFAULTS);
    forall i: nat | i < 7 ensures KeptOr(Fill(a', ADVANCED_DEFAULTS), a, ADVANCED_DEFAULTS[i].0, ADVANCED_DEFAULTS[i].1) {
      FilledField(a', ADVANCED_DEFAULTS, i);
    }
  }

  lemma DefaultsAre()
    ensures |ADVANCED_DEFAULTS| == 7
    ensures ADVANCED_DEFAULTS[0] == ("fileLog", Bool(true)) && ADVANCED_DEFAULTS[1] == ("consoleLog", Bool(true))
    ensures ADVANCED_DEFAULTS[2] == ("fileLogLevel", Str("info")) && ADVANCED_DEFAULTS[3] == ("consoleLogLevel", Str("info"))
    ensures ADVANCED_DEFAULTS[4] == ("packetBackend", Str("auto")) && ADVANCED_DEFAULTS[5] == ("packetServer", Str(""))
    ensures ADVANCED_DEFAULTS[6] == ("o3HookMode", Int(1))
    ensures forall i | 0 <= i < 7 :: ADVANCED_DEFAULTS[i].0 != "bypass"
  {
  }

  // ---------------------------------------------------------------- the legacy connection sections

  /** A legacy server section becomes a server exactly if it is enabled, names a host, or has a port. */
  lemma LegacyServerIff(v: Json)
    ensures LegacyHttpServer(v) != [] <==> SaysServer(v)
    ensures LegacyWebsocketServer(v) != [] <==> SaysServer(v)
  {
  }

  predicate SaysServer(v: Json) {
    v.Obj? && (Get(v, "enable") == Some(Bool(true)) || "port" in v.fields || NamesHost(v))
  }

  predicate NamesHost(v: Json) {
    match Get(v, "host") case Some(Str(s)) => s != "" case _ => false
  }

  // ---------------------------------------------------------------- client URLs

  /** An object whose URL is a string of white space. */
  predicate HasBlankUrl(v: Json) {
    v.Obj? && "url" in v.fields && v.fields["url"].Str? && Trim(v.fields["url"].s) == ""
  }

  /** A client as the migration leaves it. */
  predicate UrlFilled(before: Json, after: Json) {
    if HasBlankUrl(before) then after == Obj(before.fields["url" := Str("ws://127.0.0.1:6700")]) else after == before
  }

  /** In the two client lists blank URLs are filled in, and nothing else of the section changes. */
  lemma UrlsBecome(c: Fields, k: string)
    ensures UrlsMeaning(c).Keys == c.Keys
    ensures k in c ==> var v := UrlsMeaning(c)[k];
      if (k == "httpClients" || k == "websocketClients") && c[k].Arr? then
        v.Arr? && |v.items| == |c[k].items| && forall i | 0 <= i < |v.items| :: UrlFilled(c[k].items[i], v.items[i])
      else v == c[k]
  {
    hide Trim, IsWhite;
    assert k in URL_KEYS <==> k == "httpClients" || k == "websocketClients";
  }
}
