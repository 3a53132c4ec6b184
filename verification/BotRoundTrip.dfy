/**
 Reading `bot.json` back: migrate, decode, validate.  Writing a list of bots and reading it
 gives the list back exactly when the list is durable, a condition on the list alone.
 */
module BotRoundTrip {
  import opened Common
  import opened JsonModel
  import opened BotConfigModel
  import opened BotCodec
  import opened BotMigration
  import opened BotMigrationTheorems

  datatype FileState = Missing | Unreadable | Unparsable | Doc(v: Json)

  datatype LoadError = ReadFailed | NotJson | MigrationRefused | NotBots | Rejected

  predicate AllValid(lower: string -> string, bots: seq<BotConfig>) {
    forall i | 0 <= i < |bots| :: Valid(lower, bots[i])
  }

  predicate DistinctIds(bots: seq<BotConfig>) {
    forall i, j | 0 <= i < j < |bots| :: bots[i].bot.qqId != bots[j].bot.qqId
  }

  /** `load_from_disk`.  Which validation error is reported is `Validate`'s business. */
  function Load(env: Env, lower: string -> string, disk: FileState): Result<seq<BotConfig>, LoadError> {
    match disk
    case Missing => Ok([])
    case Unreadable => Err(ReadFailed)
    case Unparsable => Err(NotJson)
    case Doc(v) => LoadAfter(lower, Migration(env, v))
  }

  function LoadAfter(lower: string -> string, r: Result<Migrated, MigrationError>): Result<seq<BotConfig>, LoadError> {
    match r
    case Err(_) => Err(MigrationRefused)
    case Ok(m) => LoadMigrated(lower, m.payload)
  }

  function LoadMigrated(lower: string -> string, payload: Json): Result<seq<BotConfig>, LoadError> {
    var items := match Get(payload, "bots") case Some(b) => b case None => Arr([]);
    if !items.Arr? then Err(NotBots)
    else
      match DecodeSeq(DecodeBot, items.items)
      case None => Err(NotBots)
      case Some(bots) => if AllValid(lower, bots) && DistinctIds(bots) then Ok(bots) else Err(Rejected)
  }

  // ---------------------------------------------------------------- durable lists

  predicate DurableTarget(t: RuntimeTarget) {
    t.Server? ==> !Blank(t.id) && !SpellsLocal(t.id)
  }

  predicate DurableBot(b: BotConfig) {
    b.bot.name != "" && DurableTarget(b.bot.target)
  }

  /** Valid bots with distinct ids, non-empty names, and targets that are not blank and do not
      spell "local" some other way. */
  predicate Durable(lower: string -> string, bots: seq<BotConfig>) {
    AllValid(lower, bots) && DistinctIds(bots) && forall i | 0 <= i < |bots| :: DurableBot(bots[i])
  }

  // ---------------------------------------------------------------- what migration does to an encoded bot

  function RewriteTarget(t: RuntimeTarget): RuntimeTarget {
    if t.Server? && Blank(t.id) then Local else t
  }

  function RewriteBasic(b: BotBasic, index: nat): BotBasic {
    b.(name := if b.name == "" then "bot-" + Decimal(index + 1) else b.name, target := RewriteTarget(b.target))
  }

  function RewriteUrl(url: string): string {
    if Blank(url) then FALLBACK_URL else url
  }

  function RewriteHttpClient(c: HttpClient): HttpClient {
    c.(url := RewriteUrl(c.url))
  }

  function RewriteWsClient(c: WsClient): WsClient {
    c.(url := RewriteUrl(c.url))
  }

  function RewriteConnect(c: Connect): Connect {
    c.(httpClients := MapSeq(RewriteHttpClient, c.httpClients), wsClients := MapSeq(RewriteWsClient, c.wsClients))
  }

  function RewriteBot(b: BotConfig, index: nat): BotConfig {
    b.(bot := RewriteBasic(b.bot, index), connect := RewriteConnect(b.connect))
  }

  /** Rewritten by the migration, then read back: the target's spelling is lost too. */
  function Reread(b: BotConfig, index: nat): BotConfig {
    var r := RewriteBot(b, index);
    r.(bot := r.bot.(target := Canonical(r.bot.target)))
  }

  lemma EncodedBasicFields(b: BotBasic)
    ensures var m := EncodeBasic(b);
      "name" in m && m["name"] == Str(b.name) && "runtime_target" in m && m["runtime_target"] == EncodeTarget(b.target)
      && "offlineAutoRestart" in m && "backend_type" in m && "autoRestartSchedule" in m
      && PASSWORD_KEY !in m && !NumericQqid(m)
  {
  }

  lemma EncodeBasicName(b: BotBasic, name: string)
    ensures EncodeBasic(b)["name" := Str(name)] == EncodeBasic(b.(name := name))
  {
    assert EncodeBasic(b)["name" := Str(name)].Keys == EncodeBasic(b.(name := name)).Keys;
  }

  lemma EncodeBasicTarget(b: BotBasic)
    ensures EncodeBasic(b)["runtime_target" := Str("local")] == EncodeBasic(b.(target := Local))
  {
    assert EncodeBasic(b)["runtime_target" := Str("local")].Keys == EncodeBasic(b.(target := Local)).Keys;
  }

  /** The bot section when nothing is missing. */
  lemma BotMeaningOfComplete(env: Env, m: Fields, index: nat)
    requires "name" in m && "runtime_target" in m && "offlineAutoRestart" in m && "backend_type" in m
    requires "autoRestartSchedule" in m && PASSWORD_KEY !in m && !NumericQqid(m)
    ensures
      var named := if NeedsName(m) then m["name" := Str("bot-" + Decimal(index + 1))] else m;
      BotMeaning(env, m, index) == if NeedsTarget(m) then named["runtime_target" := Str("local")] else named
  {
    var named := if NeedsName(m) then m["name" := Str("bot-" + Decimal(index + 1))] else m;
    var r := if NeedsTarget(m) then named["runtime_target" := Str("local")] else named;
    assert BotDefaults(m, index) == r;
    assert r - {PASSWORD_KEY} == r;
    assert NormalizeQqid(r) == r;
  }

  lemma EncodedBasicMigrates(env: Env, b: BotBasic, index: nat)
    ensures BotMeaning(env, EncodeBasic(b), index) == EncodeBasic(RewriteBasic(b, index))
  {
    var m := EncodeBasic(b);
    EncodedBasicFields(b);
    BotMeaningOfComplete(env, m, index);
    BlankLocal();
    var b' := b.(name := if b.name == "" then "bot-" + Decimal(index + 1) else b.name);
    EncodeBasicName(b, b'.name);
    EncodeBasicTarget(b');
  }

  lemma BlankLocal()
    ensures !Blank("local")
  {
    TrimOfNonBlank("local");
  }

  lemma EncodedHttpClientUrl(c: HttpClient)
    ensures FixUrl(EncodeHttpClient(c)) == EncodeHttpClient(RewriteHttpClient(c))
  {
    var m := EncodeHttpClient(c).fields;
    assert "url" in m && m["url"] == Str(c.url);
    var r := EncodeHttpClient(RewriteHttpClient(c)).fields;
    assert m["url" := Str(RewriteUrl(c.url))].Keys == r.Keys;
    assert m["url" := Str(RewriteUrl(c.url))] == r;
  }

  lemma EncodedWsClientUrl(c: WsClient)
    ensures FixUrl(EncodeWsClient(c)) == EncodeWsClient(RewriteWsClient(c))
  {
    var m := EncodeWsClient(c).fields;
    assert "url" in m && m["url"] == Str(c.url);
    var r := EncodeWsClient(RewriteWsClient(c)).fields;
    assert m["url" := Str(RewriteUrl(c.url))] == r;
  }

  lemma EncodedConnectShape(c: Connect)
    ensures ShapeSettled(EncodeConnect(c), ARRAY_KEYS, LEGACY_SECTIONS)
  {
  }

  lemma EncodedConnectMigrates(c: Connect)
    ensures UrlsMeaning(ConnectMeaning(EncodeConnect(c))) == EncodeConnect(RewriteConnect(c))
  {
    var m := EncodeConnect(c);
    EncodedConnectShape(c);
    NoLegacy(m);
    ReshapeFixed(m, ARRAY_KEYS, LEGACY_SECTIONS, LegacyExtras(m));
    EncodedUrls(c);
  }

  lemma EncodedUrls(c: Connect)
    ensures UrlsMeaning(EncodeConnect(c)) == EncodeConnect(RewriteConnect(c))
  {
    var m, r := EncodeConnect(c), EncodeConnect(RewriteConnect(c));
    forall i | 0 <= i < |c.httpClients|
      ensures FixUrl(EncodeHttpClient(c.httpClients[i])) == EncodeHttpClient(RewriteHttpClient(c.httpClients[i]))
    {
      EncodedHttpClientUrl(c.httpClients[i]);
    }
    assert MapSeq(FixUrl, MapSeq(EncodeHttpClient, c.httpClients))
        == MapSeq(EncodeHttpClient, RewriteConnect(c).httpClients);
    forall i | 0 <= i < |c.wsClients|
      ensures FixUrl(EncodeWsClient(c.wsClients[i])) == EncodeWsClient(RewriteWsClient(c.wsClients[i]))
    {
      EncodedWsClientUrl(c.wsClients[i]);
    }
    assert MapSeq(FixUrl, MapSeq(EncodeWsClient, c.wsClients)) == MapSeq(EncodeWsClient, RewriteConnect(c).wsClients);
    UrlFieldsOnly(m, r);
  }

  lemma UrlFieldsOnly(m: Fields, r: Fields)
    requires m.Keys == r.Keys && "httpClients" in m && "websocketClients" in m
    requires m["httpClients"].Arr? && m["websocketClients"].Arr?
    requires r["httpClients"] == Arr(MapSeq(FixUrl, m["httpClients"].items))
    requires r["websocketClients"] == Arr(MapSeq(FixUrl, m["websocketClients"].items))
    requires forall k | k in m && k != "httpClients" && k != "websocketClients" :: r[k] == m[k]
    ensures UrlsMeaning(m) == r
  {
    forall k | k in m ensures UrlsMeaning(m)[k] == r[k] {
      assert k in URL_KEYS <==> k == "httpClients" || k == "websocketClients";
    }
  }

  lemma EncodedAdvancedSettled(a: Advanced)
    ensures AdvancedSettled(EncodeAdvanced(a))
  {
    EncodedBypassSettled(a.bypass);
    EncodedAdvancedNames(a);
  }

  lemma EncodedBypassSettled(b: Bypass)
    ensures FillSettled(EncodeBypass(b).fields, BYPASS_DEFAULTS)
  {
  }

  lemma EncodedAdvancedNames(a: Advanced)
    ensures HasObject(EncodeAdvanced(a), "bypass") && EncodeAdvanced(a)["bypass"] == EncodeBypass(a.bypass)
    ensures FillSettled(EncodeAdvanced(a), ADVANCED_DEFAULTS)
  {
  }

  lemma EncodedBotMigrates(env: Env, b: BotConfig, index: nat)
    ensures EntryOf(env)(EncodeBot(b).fields, index) == EncodeBot(RewriteBot(b, index)).fields
  {
    var m := EncodeBot(b).fields;
    BotSections(b);
    EncodedBasicMigrates(env, b.bot, index);
    EncodedConnectMigrates(b.connect);
    EncodedAdvancedSettled(b.advanced);
    AdvancedFixed(EncodeAdvanced(b.advanced));
    EncodeBotSections(b, RewriteBasic(b.bot, index), RewriteConnect(b.connect));
    SectionsMigrate(env, m, index, EncodeBasic(b.bot), EncodeConnect(b.connect), EncodeAdvanced(b.advanced));
  }

  lemma SectionsMigrate(env: Env, m: Fields, index: nat, bot: Fields, connect: Fields, advanced: Fields)
    requires "bot" in m && "connect" in m && "advanced" in m
    requires m["bot"] == Obj(bot) && m["connect"] == Obj(connect) && m["advanced"] == Obj(advanced)
    ensures EntryOf(env)(m, index)
      == WithSections(m, BotMeaning(env, bot, index), UrlsMeaning(ConnectMeaning(connect)), AdvancedMeaning(advanced))
  {
  }

  lemma EncodeBotSections(b: BotConfig, bot: BotBasic, connect: Connect)
    ensures WithSections(EncodeBot(b).fields, EncodeBasic(bot), EncodeConnect(connect), EncodeAdvanced(b.advanced))
      == EncodeBot(b.(bot := bot, connect := connect)).fields
  {
    hide EncodeBasic, EncodeConnect, EncodeAdvanced, EncodeStatusCommand;
  }

  // ---------------------------------------------------------------- the round trip

  function RereadAll(bots: seq<BotConfig>): (r: seq<BotConfig>)
    ensures |r| == |bots|
  {
    seq(|bots|, i requires 0 <= i < |bots| => Reread(bots[i], i))
  }

  /** The bots a written list turns into when it is migrated. */
  function Rewritten(bots: seq<BotConfig>): (r: seq<BotConfig>)
    ensures |r| == |bots| && forall i: nat | i < |bots| :: r[i] == RewriteBot(bots[i], i)
  {
    seq(|bots|, i requires 0 <= i < |bots| => RewriteBot(bots[i], i))
  }

  lemma EncodedAreObjects(bots: seq<BotConfig>)
    ensures AllObjects(MapSeq(EncodeBot, bots))
  {
  }

  lemma EncodedEntriesMigrate(env: Env, bots: seq<BotConfig>)
    ensures AllObjects(MapSeq(EncodeBot, bots))
    ensures MapEntries(EntryOf(env), MapSeq(EncodeBot, bots)) == MapSeq(EncodeBot, Rewritten(bots))
  {
    EncodedAreObjects(bots);
    var raw, out := MapSeq(EncodeBot, bots), MapSeq(EncodeBot, Rewritten(bots));
    forall i: nat | i < |bots| ensures Obj(EntryOf(env)(raw[i].fields, i)) == out[i] {
      EncodedEntryMigrates(env, bots[i], i);
    }
    SameEntries(EntryOf(env), raw, out);
  }

  lemma EncodedEntryMigrates(env: Env, b: BotConfig, index: nat)
    ensures EncodeBot(b).Obj? && Obj(EntryOf(env)(EncodeBot(b).fields, index)) == EncodeBot(RewriteBot(b, index))
  {
    EncodedBotMigrates(env, b, index);
  }

  lemma SameEntries(f: (Fields, nat) -> Fields, raw: seq<Json>, out: seq<Json>)
    requires AllObjects(raw) && |raw| == |out|
    requires forall i: nat | i < |raw| :: Obj(f(raw[i].fields, i)) == out[i]
    ensures MapEntries(f, raw) == out
  {
  }

  lemma MigrationOfEncoded(env: Env, bots: seq<BotConfig>)
    ensures Migration(env, BuildRootPayload(bots)).Ok?
    ensures Migration(env, BuildRootPayload(bots)).value.payload == BuildRootPayload(Rewritten(bots))
  {
    var raw := MapSeq(EncodeBot, bots);
    EncodedEntriesMigrate(env, bots);
    RootsOfRoot(raw);
    MigrationOfObjects(env, RootPayload(raw), raw, []);
  }

  lemma LoadRoot(lower: string -> string, items: seq<Json>, bots: seq<BotConfig>)
    requires DecodeSeq(DecodeBot, items) == Some(bots)
    ensures LoadMigrated(lower, RootPayload(items))
      == if AllValid(lower, bots) && DistinctIds(bots) then Ok(bots) else Err(Rejected)
  {
    assert Get(RootPayload(items), "bots") == Some(Arr(items));
  }

  lemma DecodeRewritten(bots: seq<BotConfig>)
    ensures DecodeSeq(DecodeBot, MapSeq(EncodeBot, Rewritten(bots))) == Some(RereadAll(bots))
  {
    var items := MapSeq(EncodeBot, Rewritten(bots));
    forall i | 0 <= i < |bots| ensures DecodeBot(items[i]) == Some(RereadAll(bots)[i]) {
      DecodeEncodeBot(RewriteBot(bots[i], i));
    }
    DecodeSeqOf(DecodeBot, items, RereadAll(bots));
  }

  /** What loading a written list gives, for any list whatever. */
  lemma LoadOfEncoded(env: Env, lower: string -> string, bots: seq<BotConfig>)
    ensures Load(env, lower, Doc(BuildRootPayload(bots)))
      == if AllValid(lower, RereadAll(bots)) && DistinctIds(RereadAll(bots)) then Ok(RereadAll(bots)) else Err(Rejected)
  {
    hide Migration, DecodeSeq, AllValid, DistinctIds;
    MigrationOfEncoded(env, bots);
    DecodeRewritten(bots);
    LoadRoot(lower, MapSeq(EncodeBot, Rewritten(bots)), RereadAll(bots));
  }

  /** Rereading leaves a bot alone exactly when it is durable and its client URLs are not blank. */
  lemma RereadFixed(b: BotConfig, index: nat)
    ensures Reread(b, index) == b <==> DurableBot(b) && RewriteConnect(b.connect) == b.connect
  {
    BlankLocal();
  }

  lemma ValidHasUrls(lower: string -> string, b: BotConfig)
    requires Valid(lower, b)
    ensures RewriteConnect(b.connect) == b.connect
  {
    var c := b.connect;
    var es := Endpoints(c);
    var servers := |c.httpServers| + |c.httpSseServers|;
    forall i | 0 <= i < |c.httpClients| ensures !Blank(c.httpClients[i].url) {
      assert es[servers + i].defect == UrlDefect(c.httpClients[i].url);
    }
    forall i | 0 <= i < |c.wsClients| ensures !Blank(c.wsClients[i].url) {
      assert es[servers + |c.httpClients| + |c.wsServers| + i].defect == UrlDefect(c.wsClients[i].url);
    }
    assert MapSeq(RewriteHttpClient, c.httpClients) == c.httpClients;
    assert MapSeq(RewriteWsClient, c.wsClients) == c.wsClients;
  }

  /** Encoding, migrating, decoding and validating gives a list back exactly when it is durable. */
  lemma RoundTripIffDurable(env: Env, lower: string -> string, bots: seq<BotConfig>)
    ensures Load(env, lower, Doc(BuildRootPayload(bots))) == Ok(bots) <==> Durable(lower, bots)
  {
    LoadOfEncoded(env, lower, bots);
    if Durable(lower, bots) {
      forall i | 0 <= i < |bots| ensures RereadAll(bots)[i] == bots[i] {
        ValidHasUrls(lower, bots[i]);
        RereadFixed(bots[i], i);
      }
      assert RereadAll(bots) == bots;
    }
    if RereadAll(bots) == bots {
      forall i | 0 <= i < |bots| ensures DurableBot(bots[i]) {
        assert RereadAll(bots)[i] == Reread(bots[i], i);
        RereadFixed(bots[i], i);
      }
    }
  }

  /** An empty name passes validation and still does not survive the round trip. */
  lemma EmptyNameIsLost(env: Env, lower: string -> string)
    ensures
      var bot := BotBasic("", 10001, "", RestartSchedule(false, Hour, 6), false, Local, NapCat, Native, None);
      var advanced := Advanced(false, false, false, "", "auto", false, false, true, Debug, Info, HookOn,
                               Bypass(false, false, false, false, false, false));
      var config := BotConfig(bot, Connect([], [], [], [], [], []), advanced, None);
      Valid(lower, config) && Load(env, lower, Doc(BuildRootPayload([config]))) != Ok([config])
  {
    var bot := BotBasic("", 10001, "", RestartSchedule(false, Hour, 6), false, Local, NapCat, Native, None);
    var advanced := Advanced(false, false, false, "", "auto", false, false, true, Debug, Info, HookOn,
                             Bypass(false, false, false, false, false, false));
    var config := BotConfig(bot, Connect([], [], [], [], [], []), advanced, None);
    RoundTripIffDurable(env, lower, [config]);
    assert !DurableBot([config][0]);
  }

  // ---------------------------------------------------------------- everything loaded is durable

  lemma DecodedBasicDurable(m: Fields)
    requires !NeedsName(m) && !NeedsTarget(m) && DecodeBasic(Obj(m)).Some?
    ensures DecodeBasic(Obj(m)).value.name != "" && DurableTarget(DecodeBasic(Obj(m)).value.target)
  {
    var b := DecodeBasic(Obj(m)).value;
    assert ReqString(m, "name") == Some(b.name);
    assert DefTarget(m, "runtime_target") == Some(b.target);
  }

  lemma BotMeaningNamed(env: Env, b: Fields, index: nat)
    ensures !NeedsName(BotMeaning(env, b, index)) && !NeedsTarget(BotMeaning(env, b, index))
  {
    BotDefaultsSettle(b, index);
    QqidSettles(MovePassword(env, BotDefaults(b, index)));
  }

  lemma DecodedBotParts(v: Json, b: BotConfig)
    requires DecodeBot(v) == Some(b)
    ensures v.Obj? && "bot" in v.fields && DecodeBasic(v.fields["bot"]) == Some(b.bot)
  {
  }

  lemma DecodedEntryDurable(env: Env, m: Fields, index: nat, b: BotConfig)
    requires DecodeBot(Obj(EntryOf(env)(m, index))) == Some(b)
    ensures DurableBot(b)
  {
    DecodedBotParts(Obj(EntryOf(env)(m, index)), b);
    BotMeaningNamed(env, FieldsAt(m, "bot"), index);
    DecodedBasicDurable(BotMeaning(env, FieldsAt(m, "bot"), index));
  }

  lemma {:induction false} DecodeSeqItems(read: Json -> Option<BotConfig>, xs: seq<Json>)
    requires DecodeSeq(read, xs).Some?
    ensures var ts := DecodeSeq(read, xs).value;
      |ts| == |xs| && forall i | 0 <= i < |xs| :: read(xs[i]) == Some(ts[i])
  {
    if xs != [] {
      DecodeSeqItems(read, xs[1..]);
    }
  }

  /** Whatever a file holds, a list that loads from it is durable: writing it back loses nothing. */
  lemma LoadedIsDurable(env: Env, lower: string -> string, disk: FileState)
    requires Load(env, lower, disk).Ok?
    ensures Durable(lower, Load(env, lower, disk).value)
  {
    if disk.Doc? {
      var raw := Roots(disk.v).value.0;
      var items := MapEntries(EntryOf(env), raw);
      assert Get(RootPayload(items), "bots") == Some(Arr(items));
      var bots := DecodeSeq(DecodeBot, items).value;
      DecodeSeqItems(DecodeBot, items);
      forall i: nat | i < |bots| ensures DurableBot(bots[i]) {
        assert items[i] == Obj(EntryOf(env)(raw[i].fields, i));
        DecodedEntryDurable(env, raw[i].fields, i, bots[i]);
      }
    }
  }

  // ---------------------------------------------------------------- loading and the secret store

  /** Reading a bot section never looks at the password override. */
  lemma DecodeBasicIgnoresPassword(m: Fields)
    ensures DecodeBasic(Obj(m)) == DecodeBasic(Obj(m - {PASSWORD_KEY}))
  {
    hide ReqString, ReqU64, DefString, DefSchedule, DefBool, DefTarget, DefBackend, DefDeployment, MaybeStartMode, PASSWORD_KEY;
    PasswordKeyIsNew();
    ReadersSkip(m, PASSWORD_KEY);
  }

  /** What is read of a bot section, when another key is left out. */
  lemma ReadersSkip(m: Fields, key: string)
    requires key != "name" && key != "QQID" && key != "musicSignUrl" && key != "autoRestartSchedule"
    requires key != "offlineAutoRestart" && key != "runtime_target" && key != "backend_type" && key != "deploymentType"
    requires key != "snowlumaStartMode"
    ensures var n := m - {key};
      && ReqString(n, "name") == ReqString(m, "name") && ReqU64(n, "QQID") == ReqU64(m, "QQID")
      && DefString(n, "musicSignUrl", "") == DefString(m, "musicSignUrl", "")
      && DefSchedule(n, "autoRestartSchedule") == DefSchedule(m, "autoRestartSchedule")
      && DefBool(n, "offlineAutoRestart", false) == DefBool(m, "offlineAutoRestart", false)
      && DefTarget(n, "runtime_target") == DefTarget(m, "runtime_target")
      && DefBackend(n, "backend_type") == DefBackend(m, "backend_type")
      && DefDeployment(n, "deploymentType") == DefDeployment(m, "deploymentType")
      && MaybeStartMode(n, "snowlumaStartMode") == MaybeStartMode(m, "snowlumaStartMode")
  {
    hide DecodeSchedule, TargetFrom;
  }

  lemma PasswordKeyIsNew()
    ensures PASSWORD_KEY != "name" && PASSWORD_KEY != "QQID" && PASSWORD_KEY != "musicSignUrl"
    ensures PASSWORD_KEY != "autoRestartSchedule" && PASSWORD_KEY != "offlineAutoRestart"
    ensures PASSWORD_KEY != "runtime_target" && PASSWORD_KEY != "backend_type" && PASSWORD_KEY != "deploymentType"
    ensures PASSWORD_KEY != "snowlumaStartMode"
  {
    assert |PASSWORD_KEY| == 32;
  }

  lemma BotMeaningUpToPassword(env: Env, env': Env, b: Fields, index: nat)
    ensures BotMeaning(env, b, index) - {PASSWORD_KEY} == BotMeaning(env', b, index) - {PASSWORD_KEY}
  {
    hide BotDefaults, NumericQqid, PutAccepted, HasPassword, ParseU64;
    var filled := BotDefaults(b, index);
    QqidSkipsPassword(filled);
    QqidSkipsPassword(filled - {PASSWORD_KEY});
    assert filled - {PASSWORD_KEY} - {PASSWORD_KEY} == filled - {PASSWORD_KEY};
  }

  lemma QqidSkipsPassword(b: Fields)
    ensures NormalizeQqid(b) - {PASSWORD_KEY} == NormalizeQqid(b - {PASSWORD_KEY})
  {
    PasswordKeyIsNew();
    assert NumericQqid(b) == NumericQqid(b - {PASSWORD_KEY});
  }

  lemma DecodeEntryIgnoresSecrets(env: Env, env': Env, m: Fields, index: nat)
    ensures DecodeBot(Obj(EntryOf(env)(m, index))) == DecodeBot(Obj(EntryOf(env')(m, index)))
  {
    hide BotMeaning, UrlsMeaning, ConnectMeaning, AdvancedMeaning, DecodeBasic, DecodeConnect, DecodeAdvanced, MaybeStatusCommand;
    var b := FieldsAt(m, "bot");
    var one, two := BotMeaning(env, b, index), BotMeaning(env', b, index);
    BotMeaningUpToPassword(env, env', b, index);
    DecodeBasicIgnoresPassword(one);
    DecodeBasicIgnoresPassword(two);
    DecodeSameSections(m, one, two, UrlsMeaning(ConnectMeaning(FieldsAt(m, "connect"))),
                       AdvancedMeaning(FieldsAt(m, "advanced")));
  }

  lemma DecodeSameSections(m: Fields, one: Fields, two: Fields, connect: Fields, advanced: Fields)
    requires DecodeBasic(Obj(one)) == DecodeBasic(Obj(two))
    ensures DecodeBot(Obj(WithSections(m, one, connect, advanced))) == DecodeBot(Obj(WithSections(m, two, connect, advanced)))
  {
    hide DecodeBasic, DecodeConnect, DecodeAdvanced;
    assert WithSections(m, one, connect, advanced) == WithSections(m, two, connect, advanced)["bot" := Obj(one)];
    MaybeStatusElsewhere(m, one, two, connect, advanced);
  }

  lemma MaybeStatusElsewhere(m: Fields, one: Fields, two: Fields, connect: Fields, advanced: Fields)
    ensures MaybeStatusCommand(WithSections(m, one, connect, advanced), "statusCommand")
      == MaybeStatusCommand(WithSections(m, two, connect, advanced), "statusCommand")
  {
    hide DecodeStatusCommand;
  }

  lemma {:induction false} DecodeSeqAgrees<T>(read: Json -> Option<T>, xs: seq<Json>, ys: seq<Json>)
    requires |xs| == |ys| && forall i | 0 <= i < |xs| :: read(xs[i]) == read(ys[i])
    ensures DecodeSeq(read, xs) == DecodeSeq(read, ys)
  {
    if xs != [] {
      DecodeSeqAgrees(read, xs[1..], ys[1..]);
    }
  }

  lemma LoadOfEntries(env: Env, lower: string -> string, v: Json)
    requires Roots(v).Ok? && AllObjects(Roots(v).value.0)
    ensures Load(env, lower, Doc(v)) == LoadMigrated(lower, RootPayload(MapEntries(EntryOf(env), Roots(v).value.0)))
  {
    hide EntryOf, RulesOf, WarningsOf, LoadMigrated, RootPayload, Roots;
  }

  /** What a file loads as does not depend on which puts the secret store accepts. */
  lemma LoadIgnoresSecretStore(env: Env, env': Env, lower: string -> string, disk: FileState)
    ensures Load(env, lower, disk) == Load(env', lower, disk)
  {
    hide Roots, EntryOf, DecodeSeq, AllValid, DistinctIds;
    if disk.Doc? && Roots(disk.v).Ok? && AllObjects(Roots(disk.v).value.0) {
      var raw := Roots(disk.v).value.0;
      var xs, ys := MapEntries(EntryOf(env), raw), MapEntries(EntryOf(env'), raw);
      forall i | 0 <= i < |raw| ensures DecodeBot(xs[i]) == DecodeBot(ys[i]) {
        DecodeEntryIgnoresSecrets(env, env', raw[i].fields, i);
      }
      DecodeSeqAgrees(DecodeBot, xs, ys);
      LoadOfEntries(env, lower, disk.v);
      LoadOfEntries(env', lower, disk.v);
      LoadMigratedAgrees(lower, xs, ys);
    }
  }

  lemma LoadMigratedAgrees(lower: string -> string, xs: seq<Json>, ys: seq<Json>)
    requires DecodeSeq(DecodeBot, xs) == DecodeSeq(DecodeBot, ys)
    ensures LoadMigrated(lower, RootPayload(xs)) == LoadMigrated(lower, RootPayload(ys))
  {
    hide DecodeSeq, AllValid, DistinctIds, DecodeBot;
    assert Get(RootPayload(xs), "bots") == Some(Arr(xs));
    assert Get(RootPayload(ys), "bots") == Some(Arr(ys));
  }

  // ---------------------------------------------------------------- migrating on disk

  /** A migrated bot section changes again only by losing a password. */
  lemma BotMigratedTwice(env: Env, b: Fields, index: nat)
    ensures var once := BotMeaning(env, b, index);
      BotMeaning(env, once, index) == once || BotMeaning(env, once, index) == once - {PASSWORD_KEY}
  {
    hide NumericQqid, HasPassword, PutAccepted, BotDefaults;
    var once := BotMeaning(env, b, index);
    QqidSettles(MovePassword(env, BotDefaults(b, index)));
    DefaultsFilledOnce(env, b, index);
    SameQqid(once);
  }

  lemma DefaultsFilledOnce(env: Env, b: Fields, index: nat)
    ensures BotDefaults(BotMeaning(env, b, index), index) == BotMeaning(env, b, index)
  {
    hide NumericQqid, HasPassword, PutAccepted, NormalizeQqid, Blank, Decimal, DEFAULT_SCHEDULE;
    var moved := MovePassword(env, BotDefaults(b, index));
    BotDefaultsSettle(b, index);
    QqidSettles(moved);
    PasswordKeyIsNew();
  }

  lemma SameQqid(b: Fields)
    ensures NumericQqid(b - {PASSWORD_KEY}) == NumericQqid(b)
  {
    PasswordKeyIsNew();
  }

  lemma EntryMigratedTwice(env: Env, m: Fields, index: nat)
    ensures var once := EntryOf(env)(m, index);
      DecodeBot(Obj(EntryOf(env)(once, index))) == DecodeBot(Obj(once))
  {
    hide BotMeaning, UrlsMeaning, ConnectMeaning, AdvancedMeaning, DecodeBot, DecodeBasic, WithSections;
    var bot, connect, advanced := BotMeaning(env, FieldsAt(m, "bot"), index),
        UrlsMeaning(ConnectMeaning(FieldsAt(m, "connect"))), AdvancedMeaning(FieldsAt(m, "advanced"));
    SectionsAre(m, bot, connect, advanced);
    SectionsFixed(FieldsAt(m, "connect"), FieldsAt(m, "advanced"));
    var again := BotMeaning(env, bot, index);
    SameBasic(env, FieldsAt(m, "bot"), index);
    DecodeSameSections(m, again, bot, connect, advanced);
    WithSectionsTwice(m, bot, again, connect, advanced);
  }

  lemma SectionsFixed(c: Fields, a: Fields)
    ensures var connect := UrlsMeaning(ConnectMeaning(c)); UrlsMeaning(ConnectMeaning(connect)) == connect
    ensures AdvancedMeaning(AdvancedMeaning(a)) == AdvancedMeaning(a)
  {
    hide UrlsMeaning, ConnectMeaning, AdvancedMeaning;
    var connect := UrlsMeaning(ConnectMeaning(c));
    ConnectSettles(c);
    ConnectFixed(connect);
    UrlsMeaningFixed(connect);
    AdvancedSettles(a);
    AdvancedFixed(AdvancedMeaning(a));
  }

  lemma SameBasic(env: Env, b: Fields, index: nat)
    ensures DecodeBasic(Obj(BotMeaning(env, BotMeaning(env, b, index), index))) == DecodeBasic(Obj(BotMeaning(env, b, index)))
  {
    hide BotMeaning, DecodeBasic, PASSWORD_KEY;
    var bot := BotMeaning(env, b, index);
    BotMigratedTwice(env, b, index);
    DecodeBasicIgnoresPassword(bot);
  }

  lemma UrlsMeaningFixed(c: Fields)
    requires UrlsSettled(c, URL_KEYS)
    ensures UrlsMeaning(c) == c
  {
    UrlsFixed(c, URL_KEYS);
  }

  lemma WithSectionsTwice(m: Fields, bot: Fields, again: Fields, connect: Fields, advanced: Fields)
    ensures WithSections(WithSections(m, bot, connect, advanced), again, connect, advanced)
      == WithSections(m, again, connect, advanced)
  {
  }

  /** Replacing a document by its migration changes nothing of what loads from it, whichever puts the
      secret store accepted then or accepts now. */
  lemma MigratedLoadsTheSame(env: Env, env': Env, lower: string -> string, v: Json)
    requires Migration(env, v).Ok?
    ensures Load(env', lower, Doc(Migration(env, v).value.payload)) == Load(env', lower, Doc(v))
  {
    hide EntryOf, DecodeSeq, AllValid, DistinctIds, Roots, RulesOf, WarningsOf, LoadMigrated, DecodeBot;
    var raw := Roots(v).value.0;
    var once := MapEntries(EntryOf(env), raw);
    RootsOfRoot(once);
    var twice := MapEntries(EntryOf(env), once);
    forall i | 0 <= i < |raw| ensures DecodeBot(twice[i]) == DecodeBot(once[i]) {
      EntryMigratedTwice(env, raw[i].fields, i);
    }
    DecodeSeqAgrees(DecodeBot, twice, once);
    LoadMigratedAgrees(lower, twice, once);
    LoadOfEntries(env, lower, v);
    LoadOfEntries(env, lower, RootPayload(once));
    LoadIgnoresSecretStore(env, env', lower, Doc(v));
    LoadIgnoresSecretStore(env, env', lower, Doc(RootPayload(once)));
  }

  /** What loads from each kind of file. */
  lemma LoadByFile(env: Env, lower: string -> string)
    ensures Load(env, lower, Missing) == Ok([])
    ensures Load(env, lower, Unreadable) == Err(ReadFailed) && Load(env, lower, Unparsable) == Err(NotJson)
    ensures forall v :: Load(env, lower, Doc(v)) == Err(MigrationRefused) <==> Migration(env, v).Err?
  {
    hide Migration, DecodeSeq, AllValid, DistinctIds;
  }
}
