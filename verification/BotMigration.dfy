/**
 Bringing `bot.json` of any age to the current shape.

 Every section has a meaning, a map written field by field, and a method that rewrites the
 section the way the source does and is proved to produce that meaning and the list of rules.
 */
module BotMigration {
  import opened Common
  import opened JsonModel
  import opened BotCodec

  /** The foreign parts: the secret store's answer to a put, and how a float prints. */
  datatype Env = Env(put: (string, string) -> bool, showReal: real -> string)

  datatype Warning = SecretStoreUnavailable(key: string)

  datatype Migrated = Migrated(payload: Json, rules: seq<string>, warnings: seq<Warning>)

  /** The ways a payload is refused. */
  datatype MigrationError = BotsNotAList | UnknownRoot | RootNotAnObject | EntryNotAnObject

  // ---------------------------------------------------------------- legacy connection sections

  function BoolValue(v: Json, key: string, default: bool): bool {
    match Get(v, key) case Some(Bool(b)) => b case _ => default
  }

  function StrValue(v: Json, key: string, default: string): string {
    match Get(v, key) case Some(Str(s)) => s case _ => default
  }

  function PortValue(v: Json, key: string, default: nat): nat {
    match Get(v, key) case Some(Int(i)) => if 0 < i < 0x1_0000 then i else default case _ => default
  }

  /** A legacy server section says something: it is enabled, or names a host or a port. */
  predicate Meaningful(v: Json) {
    BoolValue(v, "enable", false) || StrValue(v, "host", "") != "" || Get(v, "port").Some?
  }

  function LegacyHttpServer(http: Json): seq<Json> {
    if Meaningful(http) then
      [Obj(map["enable" := Bool(BoolValue(http, "enable", false)), "name" := Str("legacy-http-server"),
               "messagePostFormat" := Str("array"), "token" := Str(""), "debug" := Bool(false),
               "host" := Str(StrValue(http, "host", "")), "port" := Int(PortValue(http, "port", 3000)),
               "enableCors" := Bool(false), "enableWebsocket" := Bool(false)])]
    else []
  }

  function LegacyWebsocketServer(ws: Json): seq<Json> {
    if Meaningful(ws) then
      [Obj(map["enable" := Bool(BoolValue(ws, "enable", false)), "name" := Str("legacy-websocket-server"),
               "messagePostFormat" := Str("array"), "token" := Str(""), "debug" := Bool(false),
               "host" := Str(StrValue(ws, "host", "")), "port" := Int(PortValue(ws, "port", 3001)),
               "reportSelfMessage" := Bool(false), "enableForcePushEvent" := Bool(false),
               "heartInterval" := Int(30000)])]
    else []
  }

  function LegacyHttpClient(http: Json, index: nat, url: string): Json {
    Obj(map["enable" := Bool(BoolValue(http, "enablePost", true)),
            "name" := Str("legacy-http-client-" + Decimal(index + 1)), "messagePostFormat" := Str("array"),
            "token" := Str(""), "debug" := Bool(false), "url" := Str(url), "reportSelfMessage" := Bool(false)])
  }

  function LegacyWebsocketClient(ws: Json, index: nat, url: string): Json {
    Obj(map["enable" := Bool(BoolValue(ws, "enable", false)),
            "name" := Str("legacy-websocket-client-" + Decimal(index + 1)), "messagePostFormat" := Str("array"),
            "token" := Str(""), "debug" := Bool(false), "url" := Str(url), "reportSelfMessage" := Bool(false),
            "heartInterval" := Int(30000), "reconnectInterval" := Int(30000)])
  }

  /** One client per non-blank string of a URL list, numbered by its place in the list. */
  function ClientsFrom(section: Json, urls: seq<Json>, client: (Json, nat, string) -> Json): seq<Json> {
    if urls == [] then []
    else
      var n := |urls| - 1;
      ClientsFrom(section, urls[..n], client)
      + (if urls[n].Str? && !Blank(urls[n].s) then [client(section, n, Trim(urls[n].s))] else [])
  }

  function UrlList(section: Json, key: string): seq<Json> {
    match Get(section, key) case Some(Arr(urls)) => urls case _ => []
  }

  function LegacyHttpClients(http: Json): seq<Json> {
    ClientsFrom(http, UrlList(http, "postUrls"), LegacyHttpClient)
  }

  function LegacyWebsocketClients(ws: Json): seq<Json> {
    ClientsFrom(ws, UrlList(ws, "urls"), LegacyWebsocketClient)
  }

  // ---------------------------------------------------------------- connect

  const ARRAY_KEYS: seq<string> :=
    ["httpServers", "httpSseServers", "httpClients", "websocketServers", "websocketClients"]

  const LEGACY_SECTIONS: set<string> := {"http", "ws", "reverseWs"}

  function ItemsAt(c: Fields, key: string): seq<Json> {
    if key in c && c[key].Arr? then c[key].items else []
  }

  /** A connect section whose `keys` are lists, extended by `extra`, and whose `gone` fields are removed. */
  function Reshape(c: Fields, keys: seq<string>, gone: set<string>, extra: map<string, seq<Json>>): Fields {
    map k | k in (c.Keys - gone) + Elements(keys) :: ReshapedField(c, keys, extra, k)
  }

  function ReshapedField(c: Fields, keys: seq<string>, extra: map<string, seq<Json>>, k: string): Json
    requires k in keys || k in c
  {
    if k in keys then Arr(ItemsAt(c, k) + if k in extra then extra[k] else []) else c[k]
  }

  function LegacyOf(c: Fields, section: string, become: Json -> seq<Json>): seq<Json> {
    if section in c then become(c[section]) else []
  }

  /** What the legacy sections contribute to the current lists. */
  function LegacyExtras(c: Fields): map<string, seq<Json>> {
    map["httpServers" := LegacyOf(c, "http", LegacyHttpServer),
        "httpClients" := LegacyOf(c, "http", LegacyHttpClients),
        "websocketServers" := LegacyOf(c, "ws", LegacyWebsocketServer),
        "websocketClients" := LegacyOf(c, "reverseWs", LegacyWebsocketClients)]
  }

  /** The five lists exist, legacy sections are gone and appended, every other field is untouched. */
  function ConnectMeaning(c: Fields): Fields {
    Reshape(c, ARRAY_KEYS, LEGACY_SECTIONS, LegacyExtras(c))
  }

  function MissingRules(prefix: string, keys: seq<string>, missing: string -> bool): seq<string> {
    if keys == [] then []
    else
      var n := |keys| - 1;
      MissingRules(prefix, keys[..n], missing)
      + (if missing(keys[n]) then [prefix + keys[n] + " default"] else [])
  }

  function RuleIf(condition: bool, rule: string): seq<string> {
    if condition then [rule] else []
  }

  function LacksArray(c: Fields): string -> bool {
    k => !(k in c && c[k].Arr?)
  }

  function ConnectRules(c: Fields): seq<string> {
    MissingRules("connect.", ARRAY_KEYS, LacksArray(c))
    + (RuleIf(LegacyOf(c, "http", LegacyHttpServer) != [], "connect.http -> connect.httpServers")
       + RuleIf(LegacyOf(c, "http", LegacyHttpClients) != [], "connect.http.postUrls -> connect.httpClients"))
    + (RuleIf(LegacyOf(c, "ws", LegacyWebsocketServer) != [], "connect.ws -> connect.websocketServers")
       + RuleIf(LegacyOf(c, "reverseWs", LegacyWebsocketClients) != [], "connect.reverseWs -> connect.websocketClients"))
  }

  lemma ReshapeOneMore(c: Fields, keys: seq<string>, key: string)
    ensures Reshape(c, keys + [key], {}, map[])
      == if LacksArray(c)(key) then Reshape(c, keys, {}, map[])[key := Arr([])] else Reshape(c, keys, {}, map[])
  {
    var more := Reshape(c, keys + [key], {}, map[]);
    var less := Reshape(c, keys, {}, map[]);
    forall k | k in less && k != key ensures less[k] == more[k] {
      assert ReshapedField(c, keys, map[], k) == ReshapedField(c, keys + [key], map[], k);
    }
    assert more.Keys == less.Keys + {key};
    assert more[key] == Arr(ItemsAt(c, key));
    if !LacksArray(c)(key) {
      assert less[key] == c[key];
    }
  }

  /** The listed keys hold arrays, empty where the value was missing or of another type. */
  method EnsureArrays(c: Fields, keys: seq<string>) returns (r: Fields, rules: seq<string>)
    ensures r == Reshape(c, keys, {}, map[])
    ensures rules == MissingRules("connect.", keys, LacksArray(c))
  {
    r, rules := c, [];
    for i := 0 to |keys|
      invariant r == Reshape(c, keys[..i], {}, map[])
      invariant rules == MissingRules("connect.", keys[..i], LacksArray(c))
    {
      var key := keys[i];
      assert keys[..i + 1] == keys[..i] + [key];
      assert keys[..i + 1][..i] == keys[..i];
      ReshapeOneMore(c, keys[..i], key);
      if LacksArray(c)(key) {
        r := r[key := Arr([])];
        rules := rules + ["connect." + key + " default"];
      }
    }
    assert keys[..|keys|] == keys;
  }

  lemma AppendReshaped(c: Fields, keys: seq<string>, gone: set<string>, extra: map<string, seq<Json>>,
                       key: string, entries: seq<Json>)
    requires key in keys && key !in extra
    ensures key in Reshape(c, keys, gone, extra) && Reshape(c, keys, gone, extra)[key] == Arr(ItemsAt(c, key))
    ensures Reshape(c, keys, gone, extra)[key := Arr(ItemsAt(c, key) + entries)]
      == Reshape(c, keys, gone, extra[key := entries])
  {
    hide ItemsAt, Elements;
    var before, after := Reshape(c, keys, gone, extra), Reshape(c, keys, gone, extra[key := entries]);
    assert ItemsAt(c, key) + [] == ItemsAt(c, key);
    assert before[key] == ReshapedField(c, keys, extra, key);
    assert after[key] == ReshapedField(c, keys, extra[key := entries], key);
    forall k | k in before && k != key ensures before[k] == after[k] {
      assert before[k] == ReshapedField(c, keys, extra, k);
      assert after[k] == ReshapedField(c, keys, extra[key := entries], k);
    }
    assert before.Keys == after.Keys;
  }

  /** Appending what a legacy section became, with its rule if that is anything at all. */
  method AppendEntries(r: Fields, key: string, entries: seq<Json>, rule: string,
                       ghost c: Fields, ghost keys: seq<string>, ghost gone: set<string>, ghost extra: map<string, seq<Json>>)
    returns (r': Fields, rules: seq<string>)
    requires r == Reshape(c, keys, gone, extra) && key in keys && key !in extra
    ensures r' == Reshape(c, keys, gone, extra[key := entries])
    ensures rules == RuleIf(entries != [], rule)
  {
    AppendReshaped(c, keys, gone, extra, key, entries);
    if entries == [] {
      NoExtra(c, keys, gone, extra, key);
      return r, [];
    }
    return r[key := Arr(r[key].items + entries)], [rule];
  }

  /** `remove`: taking a legacy section out, if it is there. */
  lemma RemoveSection(c: Fields, keys: seq<string>, gone: set<string>, extra: map<string, seq<Json>>, section: string)
    requires section !in keys
    ensures Reshape(c, keys, gone, extra) - {section} == Reshape(c, keys, gone + {section}, extra)
    ensures section !in c ==> Reshape(c, keys, gone, extra) == Reshape(c, keys, gone + {section}, extra)
    ensures section in c && section !in gone ==>
      section in Reshape(c, keys, gone, extra) && Reshape(c, keys, gone, extra)[section] == c[section]
    ensures section !in c ==> section !in Reshape(c, keys, gone, extra)
  {
  }

  lemma NoExtra(c: Fields, keys: seq<string>, gone: set<string>, extra: map<string, seq<Json>>, key: string)
    requires key !in extra
    ensures Reshape(c, keys, gone, extra) == Reshape(c, keys, gone, extra[key := []])
  {
    var before, after := Reshape(c, keys, gone, extra), Reshape(c, keys, gone, extra[key := []]);
    forall k | k in before ensures before[k] == after[k] {
      assert before[k] == ReshapedField(c, keys, extra, k);
      assert after[k] == ReshapedField(c, keys, extra[key := []], k);
    }
    assert before.Keys == after.Keys;
  }

  /** One legacy section that feeds one list. */
  method MoveSection(r: Fields, section: string, become: Json -> seq<Json>, key: string, rule: string,
                     ghost c: Fields, ghost keys: seq<string>, ghost gone: set<string>, ghost extra: map<string, seq<Json>>)
    returns (r': Fields, rules: seq<string>)
    requires r == Reshape(c, keys, gone, extra) && key in keys && key !in extra
    requires section !in keys && section !in gone
    ensures r' == Reshape(c, keys, gone + {section}, extra[key := LegacyOf(c, section, become)])
    ensures rules == RuleIf(LegacyOf(c, section, become) != [], rule)
  {
    RemoveSection(c, keys, gone, extra, section);
    if section in r {
      var taken := r[section];
      r', rules := AppendEntries(r - {section}, key, become(taken), rule, c, keys, gone + {section}, extra);
    } else {
      NoExtra(c, keys, gone + {section}, extra, key);
      r', rules := r, [];
    }
  }

  lemma SectionNames()
    ensures "http" !in ARRAY_KEYS && "ws" !in ARRAY_KEYS && "reverseWs" !in ARRAY_KEYS
    ensures "httpServers" in ARRAY_KEYS && "httpClients" in ARRAY_KEYS
    ensures "websocketServers" in ARRAY_KEYS && "websocketClients" in ARRAY_KEYS
  {
    assert ARRAY_KEYS[0] == "httpServers" && ARRAY_KEYS[2] == "httpClients";
    assert ARRAY_KEYS[3] == "websocketServers" && ARRAY_KEYS[4] == "websocketClients";
  }

  /** The `http` section, which feeds two lists. */
  method MoveHttp(r: Fields, ghost c: Fields, keys: seq<string>) returns (r': Fields, rules: seq<string>)
    requires r == Reshape(c, keys, {}, map[])
    requires "http" !in keys && "httpServers" in keys && "httpClients" in keys
    ensures r' == Reshape(c, keys, {"http"}, map["httpServers" := LegacyOf(c, "http", LegacyHttpServer),
                                                 "httpClients" := LegacyOf(c, "http", LegacyHttpClients)])
    ensures rules == RuleIf(LegacyOf(c, "http", LegacyHttpServer) != [], "connect.http -> connect.httpServers")
      + RuleIf(LegacyOf(c, "http", LegacyHttpClients) != [], "connect.http.postUrls -> connect.httpClients")
  {
    RemoveSection(c, keys, {}, map[], "http");
    assert {} + {"http"} == {"http"};
    if "http" in r {
      var http := r["http"];
      var rules1, rules2: seq<string>;
      r', rules1 := AppendEntries(r - {"http"}, "httpServers", LegacyHttpServer(http),
                                  "connect.http -> connect.httpServers", c, keys, {"http"}, map[]);
      r', rules2 := AppendEntries(r', "httpClients", LegacyHttpClients(http),
                                  "connect.http.postUrls -> connect.httpClients", c, keys, {"http"},
                                  map["httpServers" := LegacyHttpServer(http)]);
      rules := rules1 + rules2;
    } else {
      NoExtra(c, keys, {"http"}, map[], "httpServers");
      NoExtra(c, keys, {"http"}, map["httpServers" := []], "httpClients");
      r', rules := r, [];
    }
  }

  /** The two websocket sections. */
  method MoveSockets(r: Fields, ghost c: Fields, keys: seq<string>, ghost extra: map<string, seq<Json>>)
    returns (r': Fields, rules: seq<string>)
    requires r == Reshape(c, keys, {"http"}, extra) && "websocketServers" !in extra && "websocketClients" !in extra
    requires "ws" !in keys && "reverseWs" !in keys && "websocketServers" in keys && "websocketClients" in keys
    ensures r' == Reshape(c, keys, LEGACY_SECTIONS,
                          extra["websocketServers" := LegacyOf(c, "ws", LegacyWebsocketServer)]
                               ["websocketClients" := LegacyOf(c, "reverseWs", LegacyWebsocketClients)])
    ensures rules == RuleIf(LegacyOf(c, "ws", LegacyWebsocketServer) != [], "connect.ws -> connect.websocketServers")
      + RuleIf(LegacyOf(c, "reverseWs", LegacyWebsocketClients) != [], "connect.reverseWs -> connect.websocketClients")
  {
    var rules1, rules2: seq<string>;
    r', rules1 := MoveSection(r, "ws", LegacyWebsocketServer, "websocketServers",
                              "connect.ws -> connect.websocketServers", c, keys, {"http"}, extra);
    ghost var extra' := extra["websocketServers" := LegacyOf(c, "ws", LegacyWebsocketServer)];
    r', rules2 := MoveSection(r', "reverseWs", LegacyWebsocketClients, "websocketClients",
                              "connect.reverseWs -> connect.websocketClients", c, keys, {"http"} + {"ws"}, extra');
    assert {"http"} + {"ws"} + {"reverseWs"} == LEGACY_SECTIONS;
    rules := rules1 + rules2;
  }

  /** `ensure_connect_shape`. */
  method EnsureConnectShape(c: Fields) returns (r: Fields, rules: seq<string>)
    ensures r == ConnectMeaning(c) && rules == ConnectRules(c)
  {
    var rules0, rules1, rules2: seq<string>;
    SectionNames();
    r, rules0 := EnsureArrays(c, ARRAY_KEYS);
    r, rules1 := MoveHttp(r, c, ARRAY_KEYS);
    r, rules2 := MoveSockets(r, c, ARRAY_KEYS, map["httpServers" := LegacyOf(c, "http", LegacyHttpServer),
                                                   "httpClients" := LegacyOf(c, "http", LegacyHttpClients)]);
    rules := rules0 + rules1 + rules2;
  }

  // ---------------------------------------------------------------- advanced

  type Defaults = seq<(string, Json)>

  function Fill(m: Fields, ds: Defaults): Fields {
    if ds == [] then m
    else
      var n := |ds| - 1;
      var filled := Fill(m, ds[..n]);
      if ds[n].0 in filled then filled else filled[ds[n].0 := ds[n].1]
  }

  function LacksKey(m: Fields): string -> bool {
    k => k !in m
  }

  function Names(ds: Defaults): seq<string> {
    seq(|ds|, i requires 0 <= i < |ds| => ds[i].0)
  }

  predicate DistinctNames(ds: Defaults) {
    forall i, j | 0 <= i < j < |ds| :: ds[i].0 != ds[j].0
  }

  /** Filling adds the missing names and nothing else, and keeps every present value. */
  lemma {:induction false} FillSpec(m: Fields, ds: Defaults)
    requires DistinctNames(ds)
    ensures ds != [] ==> ds[|ds| - 1].0 !in Names(ds[..|ds| - 1])
    ensures Fill(m, ds).Keys == m.Keys + Elements(Names(ds))
    ensures forall k | k in m :: Fill(m, ds)[k] == m[k]
    ensures forall i | 0 <= i < |ds| && ds[i].0 !in m :: ds[i].0 in Fill(m, ds) && Fill(m, ds)[ds[i].0] == ds[i].1
  {
    if ds != [] {
      var n := |ds| - 1;
      FillSpec(m, ds[..n]);
      assert Names(ds) == Names(ds[..n]) + [ds[n].0];
      forall i | 0 <= i < |ds| && ds[i].0 !in m
        ensures ds[i].0 in Fill(m, ds) && Fill(m, ds)[ds[i].0] == ds[i].1
      {
        if i < n {
          assert ds[..n][i] == ds[i];
        } else {
          assert ds[n].0 !in Names(ds[..n]);
        }
      }
    }
  }

  lemma FillOneMore(m: Fields, ds: Defaults, i: nat)
    requires DistinctNames(ds) && i < |ds|
    ensures Fill(m, ds[..i + 1])
      == if ds[i].0 in m then Fill(m, ds[..i]) else Fill(m, ds[..i])[ds[i].0 := ds[i].1]
    ensures Names(ds[..i + 1]) == Names(ds[..i]) + [ds[i].0]
    ensures ds[i].0 in Fill(m, ds[..i]) <==> ds[i].0 in m
  {
    assert ds[..i + 1][..i] == ds[..i];
    FillSpec(m, ds[..i]);
    assert ds[i].0 !in Names(ds[..i]);
  }

  lemma MissingOneMore(prefix: string, keys: seq<string>, key: string, missing: string -> bool)
    ensures MissingRules(prefix, keys + [key], missing)
      == MissingRules(prefix, keys, missing) + if missing(key) then [prefix + key + " default"] else []
  {
    assert (keys + [key])[..|keys|] == keys;
  }

  /** Insert each default whose key is missing. */
  method FillDefaults(m: Fields, ds: Defaults, prefix: string) returns (r: Fields, rules: seq<string>)
    requires DistinctNames(ds)
    ensures r == Fill(m, ds) && rules == MissingRules(prefix, Names(ds), LacksKey(m))
  {
    r, rules := m, [];
    for i := 0 to |ds|
      invariant r == Fill(m, ds[..i]) && rules == MissingRules(prefix, Names(ds[..i]), LacksKey(m))
    {
      FillOneMore(m, ds, i);
      MissingOneMore(prefix, Names(ds[..i]), ds[i].0, LacksKey(m));
      if ds[i].0 !in r {
        r := r[ds[i].0 := ds[i].1];
        rules := rules + [prefix + ds[i].0 + " default"];
      }
    }
    assert ds[..|ds|] == ds;
  }

  const BYPASS_DEFAULTS: Defaults := [
    ("hook", Bool(false)), ("window", Bool(false)), ("module", Bool(false)),
    ("process", Bool(false)), ("container", Bool(false)), ("js", Bool(false))]

  const ADVANCED_DEFAULTS: Defaults := [
    ("fileLog", Bool(true)), ("consoleLog", Bool(true)), ("fileLogLevel", Str("info")),
    ("consoleLogLevel", Str("info")), ("packetBackend", Str("auto")), ("packetServer", Str("")),
    ("o3HookMode", Int(1))]

  lemma DefaultsDistinct()
    ensures DistinctNames(BYPASS_DEFAULTS) && DistinctNames(ADVANCED_DEFAULTS)
  {
  }

  function FieldsAt(m: Fields, key: string): Fields {
    if key in m && m[key].Obj? then m[key].fields else map[]
  }

  predicate HasObject(m: Fields, key: string) {
    key in m && m[key].Obj?
  }

  function AdvancedMeaning(a: Fields): Fields {
    Fill(a["bypass" := Obj(Fill(FieldsAt(a, "bypass"), BYPASS_DEFAULTS))], ADVANCED_DEFAULTS)
  }

  function AdvancedRules(a: Fields): seq<string> {
    RuleIf(!HasObject(a, "bypass"), "advanced.bypass default")
    + MissingRules("advanced.bypass.", Names(BYPASS_DEFAULTS), LacksKey(FieldsAt(a, "bypass")))
    + MissingRules("advanced.", Names(ADVANCED_DEFAULTS), LacksKey(a["bypass" := Null]))
  }

  /** `normalize_advanced`. */
  method NormalizeAdvanced(a: Fields) returns (r: Fields, rules: seq<string>)
    ensures r == AdvancedMeaning(a) && rules == AdvancedRules(a)
  {
    var rules0, rules1, rules2: seq<string>;
    DefaultsDistinct();
    rules0 := RuleIf(!HasObject(a, "bypass"), "advanced.bypass default");
    var bypass;
    bypass, rules1 := FillDefaults(FieldsAt(a, "bypass"), BYPASS_DEFAULTS, "advanced.bypass.");
    var a' := a["bypass" := Obj(bypass)];
    r, rules2 := FillDefaults(a', ADVANCED_DEFAULTS, "advanced.");
    SameRules("advanced.", Names(ADVANCED_DEFAULTS), LacksKey(a'), LacksKey(a["bypass" := Null]));
    rules := rules0 + rules1 + rules2;
  }

  lemma {:induction false} SameRules(prefix: string, keys: seq<string>, p: string -> bool, q: string -> bool)
    requires forall k | k in keys :: p(k) == q(k)
    ensures MissingRules(prefix, keys, p) == MissingRules(prefix, keys, q)
  {
    if keys != [] {
      var n := |keys| - 1;
      SameRules(prefix, keys[..n], p, q);
      assert keys[n] in keys;
    }
  }

  // ---------------------------------------------------------------- bot

  const PASSWORD_KEY: string := "snowluma_webui_password_override"

  predicate NeedsName(b: Fields) {
    "name" !in b || b["name"] == Str("")
  }

  predicate NeedsTarget(b: Fields) {
    "runtime_target" !in b || (b["runtime_target"].Str? && Blank(b["runtime_target"].s))
  }

  function WithDefault(b: Fields, key: string, v: Json): Fields {
    if key in b then b else b[key := v]
  }

  const DEFAULT_SCHEDULE: Json := Obj(map["enable" := Bool(false), "time_unit" := Str("h"), "duration" := Int(6)])

  /** The name, target and default fields of `normalize_bot_fields`. */
  function BotDefaults(b: Fields, index: nat): Fields {
    var named := if NeedsName(b) then b["name" := Str("bot-" + Decimal(index + 1))] else b;
    var offline := WithDefault(named, "offlineAutoRestart", Bool(false));
    var targeted := if NeedsTarget(offline) then offline["runtime_target" := Str("local")] else offline;
    var backed := WithDefault(targeted, "backend_type", Str("napcat"));
    WithDefault(backed, "autoRestartSchedule", DEFAULT_SCHEDULE)
  }

  function BotDefaultRules(b: Fields): seq<string> {
    RuleIf(NeedsName(b), "bot.name default")
    + RuleIf("offlineAutoRestart" !in b, "bot.offlineAutoRestart default")
    + RuleIf("runtime_target" !in b, "bot.runtime_target default")
    + RuleIf("runtime_target" in b && NeedsTarget(b), "bot.runtime_target normalized")
    + RuleIf("backend_type" !in b, "bot.backend_type default")
    + RuleIf("autoRestartSchedule" !in b, "bot.autoRestartSchedule default")
  }

  function ShowInt(i: int): string {
    if i < 0 then "-" + Decimal(-i) else Decimal(i)
  }

  function BotId(env: Env, b: Fields): string {
    var shown := if "QQID" !in b then ""
                 else match b["QQID"] case Str(s) => s case Int(i) => ShowInt(i) case Float(r) => env.showReal(r) case _ => "";
    if shown == "" then "unknown" else shown
  }

  function SecretKey(env: Env, b: Fields): string {
    "bot:" + BotId(env, b) + ":" + PASSWORD_KEY
  }

  /** A password that is really there. */
  predicate HasPassword(b: Fields) {
    PASSWORD_KEY in b && b[PASSWORD_KEY].Str? && !Blank(b[PASSWORD_KEY].s)
  }

  predicate PutAccepted(env: Env, b: Fields)
    requires HasPassword(b)
  {
    env.put(SecretKey(env, b), Trim(b[PASSWORD_KEY].s))
  }

  function MovePassword(env: Env, b: Fields): Fields {
    if HasPassword(b) && !PutAccepted(env, b) then b else b - {PASSWORD_KEY}
  }

  function PasswordRules(env: Env, b: Fields): seq<string> {
    RuleIf(HasPassword(b) && PutAccepted(env, b), "bot.snowluma_webui_password_override migrated to secret store")
    + RuleIf(PASSWORD_KEY in b && !HasPassword(b),
             "bot.snowluma_webui_password_override removed (empty legacy default)")
  }

  function PasswordWarnings(env: Env, b: Fields): seq<Warning> {
    if HasPassword(b) && !PutAccepted(env, b) then [SecretStoreUnavailable(SecretKey(env, b))] else []
  }

  /** `str::parse::<u64>`: an optional plus sign, digits, and no overflow. */
  function ParseU64(s: string): Option<nat> {
    var digits := if s != "" && s[0] == '+' then s[1..] else s;
    if digits == "" || !AllDigits(digits) then None
    else if DigitsValue(digits) < 0x1_0000_0000_0000_0000 then Some(DigitsValue(digits)) else None
  }

  predicate AllDigits(s: string) {
    forall i | 0 <= i < |s| :: IsDigit(s[i])
  }

  function DigitsValue(s: string): nat {
    if s == "" then 0
    else DigitsValue(s[..|s| - 1]) * 10 + if IsDigit(s[|s| - 1]) then s[|s| - 1] as int - '0' as int else 0
  }

  /** A QQID written as a numeric string.  The source's other branch, an `i64` that is not a `u64`
      but converts to one, cannot be taken. */
  predicate NumericQqid(b: Fields) {
    "QQID" in b && b["QQID"].Str? && ParseU64(Trim(b["QQID"].s)).Some?
  }

  function NormalizeQqid(b: Fields): Fields {
    if NumericQqid(b) then b["QQID" := Int(ParseU64(Trim(b["QQID"].s)).value)] else b
  }

  function BotMeaning(env: Env, b: Fields, index: nat): Fields {
    NormalizeQqid(MovePassword(env, BotDefaults(b, index)))
  }

  function BotRules(env: Env, b: Fields, index: nat): seq<string> {
    var filled := BotDefaults(b, index);
    BotDefaultRules(b) + PasswordRules(env, filled)
    + RuleIf(NumericQqid(MovePassword(env, filled)), "bot.QQID string -> number")
  }

  // ---------------------------------------------------------------- urls

  const FALLBACK_URL: string := "ws://127.0.0.1:6700"

  predicate BlankUrl(entry: Json) {
    entry.Obj? && "url" in entry.fields && entry.fields["url"].Str? && Blank(entry.fields["url"].s)
  }

  function FixUrl(entry: Json): Json {
    if BlankUrl(entry) then Obj(entry.fields["url" := Str(FALLBACK_URL)]) else entry
  }

  const URL_KEYS: seq<string> := ["httpClients", "websocketClients"]

  function FixUrlsUnder(c: Fields, keys: seq<string>): Fields {
    map k | k in c :: if k in keys && c[k].Arr? then Arr(MapSeq(FixUrl, c[k].items)) else c[k]
  }

  function UrlsMeaning(c: Fields): Fields {
    FixUrlsUnder(c, URL_KEYS)
  }

  lemma FixUrlsOneMore(c: Fields, keys: seq<string>, key: string)
    requires key !in keys
    ensures key in FixUrlsUnder(c, keys) <==> key in c
    ensures key in c ==> FixUrlsUnder(c, keys)[key] == c[key]
    ensures FixUrlsUnder(c, keys + [key])
      == if key in c && c[key].Arr? then FixUrlsUnder(c, keys)[key := Arr(MapSeq(FixUrl, c[key].items))]
         else FixUrlsUnder(c, keys)
  {
  }

  lemma NoUrlsFixed(c: Fields)
    ensures FixUrlsUnder(c, []) == c
  {
  }

  /** `normalize_urls`: it changes entries without recording a rule. */
  method NormalizeUrls(c: Fields, keys: seq<string>) returns (r: Fields)
    requires forall i, j | 0 <= i < j < |keys| :: keys[i] != keys[j]
    ensures r == FixUrlsUnder(c, keys)
  {
    hide FixUrlsUnder, MapSeq, FixUrl;
    NoUrlsFixed(c);
    r := c;
    for i := 0 to |keys|
      invariant r == FixUrlsUnder(c, keys[..i])
    {
      var key := keys[i];
      FixUrlsOneMore(c, keys[..i], key);
      assert keys[..i + 1] == keys[..i] + [key];
      if key in r && r[key].Arr? {
        var fixed := FixUrls(r[key].items);
        r := r[key := Arr(fixed)];
      }
    }
    assert keys[..|keys|] == keys;
  }

  method FixUrls(entries: seq<Json>) returns (r: seq<Json>)
    ensures r == MapSeq(FixUrl, entries)
  {
    r := entries;
    for i := 0 to |entries|
      invariant |r| == |entries|
      invariant forall j | 0 <= j < |entries| :: r[j] == if j < i then FixUrl(entries[j]) else entries[j]
    {
      if BlankUrl(r[i]) {
        r := r[i := Obj(r[i].fields["url" := Str(FALLBACK_URL)])];
      }
    }
  }

  // ---------------------------------------------------------------- one bot, and the root

  /** The three sections of an entry are rewritten, everything beside them is kept. */
  function EntryMeaning(env: Env, m: Fields, index: nat): Fields {
    WithSections(m, BotMeaning(env, FieldsAt(m, "bot"), index), UrlsMeaning(ConnectMeaning(FieldsAt(m, "connect"))),
                 AdvancedMeaning(FieldsAt(m, "advanced")))
  }

  function WithSections(m: Fields, bot: Fields, connect: Fields, advanced: Fields): Fields {
    m["bot" := Obj(bot)]["connect" := Obj(connect)]["advanced" := Obj(advanced)]
  }

  function EntryRules(env: Env, m: Fields, index: nat): seq<string> {
    ConnectRules(FieldsAt(m, "connect")) + AdvancedRules(FieldsAt(m, "advanced"))
    + BotRules(env, FieldsAt(m, "bot"), index)
  }

  function EntryWarnings(env: Env, m: Fields, index: nat): seq<Warning> {
    PasswordWarnings(env, BotDefaults(FieldsAt(m, "bot"), index))
  }

  /** `migrate_bot_entry`. */
  method MigrateBotEntry(env: Env, m: Fields, index: nat)
    returns (r: Fields, rules: seq<string>, warnings: seq<Warning>)
    ensures r == EntryMeaning(env, m, index) && rules == EntryRules(env, m, index)
    ensures warnings == EntryWarnings(env, m, index)
  {
    hide ConnectRules, ConnectMeaning, AdvancedRules, AdvancedMeaning, BotRules, BotMeaning, PasswordWarnings;
    var bot, connect, advanced := FieldsAt(m, "bot"), FieldsAt(m, "connect"), FieldsAt(m, "advanced");
    var rules1, rules2: seq<string>;
    connect, rules1 := EnsureConnectShape(connect);
    advanced, rules2 := NormalizeAdvanced(advanced);
    rules := rules1 + rules2 + BotRules(env, bot, index);
    warnings := PasswordWarnings(env, BotDefaults(bot, index));
    bot := BotMeaning(env, bot, index);
    connect := NormalizeUrls(connect, URL_KEYS);
    r := WithSections(m, bot, connect, advanced);
  }

  /** `normalize_root`: a list, a wrapped list, or a single bot. */
  function Roots(payload: Json): Result<(seq<Json>, seq<string>), MigrationError> {
    match payload
    case Arr(items) => Ok((items, ["root list -> object with info/bots"]))
    case Obj(m) =>
      if "bots" in m then
        if m["bots"].Arr? then Ok((m["bots"].items, [])) else Err(BotsNotAList)
      else if "bot" in m && "connect" in m && "advanced" in m then
        Ok(([payload], ["single bot object -> object with info/bots"]))
      else Err(UnknownRoot)
    case _ => Err(RootNotAnObject)
  }

  predicate AllObjects(bots: seq<Json>) {
    forall i | 0 <= i < |bots| :: bots[i].Obj?
  }

  /** Each entry rewritten, with its place in the list. */
  function MapEntries(f: (Fields, nat) -> Fields, bots: seq<Json>): (r: seq<Json>)
    requires AllObjects(bots)
    ensures |r| == |bots|
  {
    seq(|bots|, i requires 0 <= i < |bots| => Obj(f(bots[i].fields, i)))
  }

  /** What each entry contributes, in order. */
  function ConcatEntries<T>(f: (Fields, nat) -> seq<T>, bots: seq<Json>): seq<T>
    requires AllObjects(bots)
  {
    if bots == [] then []
    else
      var n := |bots| - 1;
      ConcatEntries(f, bots[..n]) + f(bots[n].fields, n)
  }

  function EntryOf(env: Env): (Fields, nat) -> Fields {
    (m: Fields, i: nat) => EntryMeaning(env, m, i)
  }

  function Prefixed(index: nat, rules: seq<string>): seq<string> {
    seq(|rules|, i requires 0 <= i < |rules| => "bots[" + Decimal(index) + "]: " + rules[i])
  }

  function RulesOf(env: Env): (Fields, nat) -> seq<string> {
    (m: Fields, i: nat) => Prefixed(i, EntryRules(env, m, i))
  }

  function WarningsOf(env: Env): (Fields, nat) -> seq<Warning> {
    (m: Fields, i: nat) => EntryWarnings(env, m, i)
  }

  /** What `migrate_bot_config` returns. */
  function Migration(env: Env, payload: Json): Result<Migrated, MigrationError> {
    var roots :- Roots(payload);
    if !AllObjects(roots.0) then Err(EntryNotAnObject)
    else Ok(Migrated(RootPayload(MapEntries(EntryOf(env), roots.0)), roots.1 + ConcatEntries(RulesOf(env), roots.0),
                     ConcatEntries(WarningsOf(env), roots.0)))
  }

  lemma MapEntriesStep(f: (Fields, nat) -> Fields, bots: seq<Json>, i: nat)
    requires i < |bots| && AllObjects(bots[..i]) && bots[i].Obj?
    ensures AllObjects(bots[..i + 1])
    ensures MapEntries(f, bots[..i + 1]) == MapEntries(f, bots[..i]) + [Obj(f(bots[i].fields, i))]
  {
  }

  lemma ConcatEntriesStep<T>(f: (Fields, nat) -> seq<T>, bots: seq<Json>, i: nat)
    requires i < |bots| && AllObjects(bots[..i]) && bots[i].Obj?
    ensures AllObjects(bots[..i + 1])
    ensures ConcatEntries(f, bots[..i + 1]) == ConcatEntries(f, bots[..i]) + f(bots[i].fields, i)
  {
    assert bots[..i + 1][..i] == bots[..i];
  }

  /** `migrate_bot_config`. */
  method MigrateBotConfig(env: Env, payload: Json) returns (r: Result<Migrated, MigrationError>)
    ensures r == Migration(env, payload)
  {
    var roots := Roots(payload);
    if roots.Err? {
      return Err(roots.error);
    }
    var ok, migrated, rules, warnings := MigrateBots(env, roots.value.0);
    if !ok {
      return Err(EntryNotAnObject);
    }
    return Ok(Migrated(RootPayload(migrated), roots.value.1 + rules, warnings));
  }

  /** One turn of the loop. */
  method MigrateNth(env: Env, m: Fields, index: nat)
    returns (r: Fields, rules: seq<string>, warnings: seq<Warning>)
    ensures r == EntryOf(env)(m, index) && rules == RulesOf(env)(m, index) && warnings == WarningsOf(env)(m, index)
  {
    r, rules, warnings := MigrateBotEntry(env, m, index);
    rules := Prefixed(index, rules);
  }

  lemma OneMoreEntry(f: (Fields, nat) -> Fields, g: (Fields, nat) -> seq<string>, h: (Fields, nat) -> seq<Warning>,
                     bots: seq<Json>, i: nat)
    requires i < |bots| && AllObjects(bots[..i]) && bots[i].Obj?
    ensures AllObjects(bots[..i + 1])
    ensures MapEntries(f, bots[..i + 1]) == MapEntries(f, bots[..i]) + [Obj(f(bots[i].fields, i))]
    ensures ConcatEntries(g, bots[..i + 1]) == ConcatEntries(g, bots[..i]) + g(bots[i].fields, i)
    ensures ConcatEntries(h, bots[..i + 1]) == ConcatEntries(h, bots[..i]) + h(bots[i].fields, i)
  {
    MapEntriesStep(f, bots, i);
    ConcatEntriesStep(g, bots, i);
    ConcatEntriesStep(h, bots, i);
  }

  /** The loop of `migrate_bot_config` over the raw bots. */
  method MigrateBots(env: Env, bots: seq<Json>)
    returns (ok: bool, migrated: seq<Json>, rules: seq<string>, warnings: seq<Warning>)
    ensures ok <==> AllObjects(bots)
    ensures ok ==> migrated == MapEntries(EntryOf(env), bots)
    ensures ok ==> rules == ConcatEntries(RulesOf(env), bots)
    ensures ok ==> warnings == ConcatEntries(WarningsOf(env), bots)
  {
    hide EntryOf, RulesOf, WarningsOf;
    migrated, rules, warnings := [], [], [];
    var i := 0;
    while i < |bots| && bots[i].Obj?
      invariant i <= |bots| && AllObjects(bots[..i])
      invariant migrated == MapEntries(EntryOf(env), bots[..i])
      invariant rules == ConcatEntries(RulesOf(env), bots[..i])
      invariant warnings == ConcatEntries(WarningsOf(env), bots[..i])
    {
      var bot, entryRules, entryWarnings := MigrateNth(env, bots[i].fields, i);
      OneMoreEntry(EntryOf(env), RulesOf(env), WarningsOf(env), bots, i);
      migrated := migrated + [Obj(bot)];
      rules := rules + entryRules;
      warnings := warnings + entryWarnings;
      i := i + 1;
    }
    ok := i == |bots|;
    assert ok ==> bots[..i] == bots;
  }
}
