/**
 Rendering a bot configuration into the backend's own JSON files.

 A render keeps the top-level fields it does not know.  The theorems say what that is worth:
 what was just written is never reported as a user's edit, and rendering again, even from
 another configuration, neither loses nor invents a user's field.
 */
module Render {
  import opened Common
  import opened JsonModel
  import opened DriftDiff
  import opened DriftTheorems
  import opened DriftNormalize
  import opened BotConfigModel
  import opened BotCodec

  // ---------------------------------------------------------------- NapCat

  /** A field that is written only under a condition. */
  function WriteIf(m: Fields, condition: bool, key: string, v: Json): Fields {
    if condition then m[key := v] else m
  }

  function NapcatHttpServer(s: HttpServer): Json {
    var m := map["name" := Str(s.base.name), "enable" := Bool(s.base.enable),
                 "messagePostFormat" := EncodeFormat(s.base.format), "token" := Str(s.base.token),
                 "host" := Str(s.host), "port" := Int(s.port), "enableCors" := Bool(s.enableCors),
                 "enableWebsocket" := Bool(s.enableWebsocket)];
    Obj(WriteIf(WriteIf(m, s.base.debug, "debug", Bool(true)), s.path != "/", "path", Str(s.path)))
  }

  function NapcatHttpSseServer(s: HttpSseServer): Json {
    var m := map["name" := Str(s.base.name), "enable" := Bool(s.base.enable),
                 "messagePostFormat" := EncodeFormat(s.base.format), "token" := Str(s.base.token),
                 "host" := Str(s.host), "port" := Int(s.port), "enableCors" := Bool(s.enableCors),
                 "enableWebsocket" := Bool(s.enableWebsocket), "reportSelfMessage" := Bool(s.reportSelf)];
    Obj(WriteIf(m, s.base.debug, "debug", Bool(true)))
  }

  function NapcatHttpClient(c: HttpClient): Json {
    var m := map["name" := Str(c.base.name), "enable" := Bool(c.base.enable),
                 "messagePostFormat" := EncodeFormat(c.base.format), "token" := Str(c.base.token),
                 "url" := Str(c.url), "reportSelfMessage" := Bool(c.reportSelf)];
    Obj(WriteIf(m, c.base.debug, "debug", Bool(true)))
  }

  function NapcatWsServer(s: WsServer): Json {
    var m := map["name" := Str(s.base.name), "enable" := Bool(s.base.enable),
                 "messagePostFormat" := EncodeFormat(s.base.format), "token" := Str(s.base.token),
                 "host" := Str(s.host), "port" := Int(s.port), "reportSelfMessage" := Bool(s.reportSelf),
                 "enableForcePushEvent" := Bool(s.forcePush), "heartInterval" := Int(s.heart)];
    Obj(WriteIf(WriteIf(m, s.base.debug, "debug", Bool(true)), s.path != "/", "path", Str(s.path)))
  }

  function NapcatWsClient(c: WsClient): Json {
    var m := map["name" := Str(c.base.name), "enable" := Bool(c.base.enable),
                 "messagePostFormat" := EncodeFormat(c.base.format), "token" := Str(c.base.token),
                 "url" := Str(c.url), "reportSelfMessage" := Bool(c.reportSelf),
                 "reconnectInterval" := Int(c.reconnect), "heartInterval" := Int(c.heart)];
    Obj(WriteIf(m, c.base.debug, "debug", Bool(true)))
  }

  function NapcatConnect(c: Connect): Json {
    Obj(map["httpServers" := Arr(MapSeq(NapcatHttpServer, c.httpServers)),
            "httpSseServers" := Arr(MapSeq(NapcatHttpSseServer, c.httpSseServers)),
            "httpClients" := Arr(MapSeq(NapcatHttpClient, c.httpClients)),
            "websocketServers" := Arr(MapSeq(NapcatWsServer, c.wsServers)),
            "websocketClients" := Arr(MapSeq(NapcatWsClient, c.wsClients)),
            "plugins" := Arr(c.plugins)])
  }

  /** `NapCatConfigRenderer::build_onebot_payload`. */
  function NapcatOnebot(c: BotConfig): Json {
    Obj(map["network" := NapcatConnect(c.connect), "musicSignUrl" := Str(c.bot.musicSignUrl),
            "enableLocalFile2Url" := Bool(c.advanced.localFileToUrl), "parseMultMsg" := Bool(c.advanced.parseMultMsg)])
  }

  /** `napcat_build_napcat_payload`: switches that are off and an empty server are left out. */
  function NapcatOwn(a: Advanced): Json {
    var m := map["fileLogLevel" := EncodeLevel(a.fileLogLevel), "consoleLogLevel" := EncodeLevel(a.consoleLogLevel),
                 "packetBackend" := Str(a.packetBackend), "o3HookMode" := EncodeHook(a.hookMode),
                 "bypass" := EncodeBypass(a.bypass)];
    Obj(WriteIf(WriteIf(WriteIf(m, a.fileLog, "fileLog", Bool(true)), a.consoleLog, "consoleLog", Bool(true)),
                a.packetServer != "", "packetServer", Str(a.packetServer)))
  }

  const NAPCAT_ONEBOT_KNOWN: seq<string> := ["network", "musicSignUrl", "enableLocalFile2Url", "parseMultMsg"]

  const NAPCAT_OWN_KNOWN: seq<string> :=
    ["fileLog", "consoleLog", "fileLogLevel", "consoleLogLevel", "packetBackend", "packetServer", "o3HookMode", "bypass"]

  // ---------------------------------------------------------------- SnowLuma

  const MIN_RECONNECT_MS: nat := 1000

  function SnowlumaHttpServer(s: HttpServer): Json {
    Obj(map["name" := Str(s.base.name), "enabled" := Bool(s.base.enable), "messageFormat" := EncodeFormat(s.base.format),
            "accessToken" := Str(s.base.token), "reportSelfMessage" := Bool(false), "host" := Str(s.host),
            "port" := Int(s.port), "path" := Str(s.path)])
  }

  function SnowlumaHttpClient(c: HttpClient): Json {
    var m := map["name" := Str(c.base.name), "enabled" := Bool(c.base.enable),
                 "messageFormat" := EncodeFormat(c.base.format), "accessToken" := Str(c.base.token),
                 "url" := Str(c.url), "reportSelfMessage" := Bool(c.reportSelf)];
    Obj(With(m, "timeoutMs", if c.timeoutMs.None? then None else Some(Int(c.timeoutMs.value))))
  }

  function SnowlumaWsServer(s: WsServer): Json {
    Obj(map["name" := Str(s.base.name), "enabled" := Bool(s.base.enable), "messageFormat" := EncodeFormat(s.base.format),
            "accessToken" := Str(s.base.token), "reportSelfMessage" := Bool(s.reportSelf), "host" := Str(s.host),
            "port" := Int(s.port), "path" := Str(s.path), "role" := EncodeRole(s.role)])
  }

  function SnowlumaWsClient(c: WsClient): Json {
    Obj(map["name" := Str(c.base.name), "enabled" := Bool(c.base.enable), "messageFormat" := EncodeFormat(c.base.format),
            "accessToken" := Str(c.base.token), "url" := Str(c.url), "reportSelfMessage" := Bool(c.reportSelf),
            "reconnectIntervalMs" := Int(if c.reconnect < MIN_RECONNECT_MS then MIN_RECONNECT_MS else c.reconnect),
            "role" := EncodeRole(c.role)])
  }

  function DefaultListener(): BaseFields {
    BaseFields(true, "", ArrayFormat, "", false)
  }

  const FALLBACK_HTTP: HttpServer :=
    HttpServer(DefaultListener().(name := "http-default"), "0.0.0.0", 3000, false, false, "/")

  const FALLBACK_WS: WsServer :=
    WsServer(DefaultListener().(name := "ws-default"), "0.0.0.0", 3001, false, false, 30000, "/", Universal)

  /** `build_networks`: without any server of either kind, one default listener of each. */
  function SnowlumaNetworks(c: Connect): Json {
    var none := c.httpServers == [] && c.wsServers == [];
    Obj(map["httpServers" := Arr(MapSeq(SnowlumaHttpServer, if none then [FALLBACK_HTTP] else c.httpServers)),
            "httpClients" := Arr(MapSeq(SnowlumaHttpClient, c.httpClients)),
            "wsServers" := Arr(MapSeq(SnowlumaWsServer, if none then [FALLBACK_WS] else c.wsServers)),
            "wsClients" := Arr(MapSeq(SnowlumaWsClient, c.wsClients))])
  }

  /** `SnowLumaConfigRenderer::build_onebot_payload`. */
  function SnowlumaOnebot(c: BotConfig): Json {
    var m := map["networks" := SnowlumaNetworks(c.connect), "musicSignUrl" := Str(c.bot.musicSignUrl)];
    Obj(With(m, "statusCommand",
             if c.statusCommand.None? then None else Some(EncodeStatusCommand(c.statusCommand.value))))
  }

  const SNOWLUMA_ONEBOT_KNOWN: seq<string> := ["networks", "musicSignUrl", "statusCommand"]

  // ---------------------------------------------------------------- merging

  function Unknown(existing: Option<Json>, known: seq<string>): Fields {
    if existing.Some? && existing.value.Obj?
    then map k | k in existing.value.fields && k !in known :: existing.value.fields[k]
    else map[]
  }

  /** The rendered object, with the existing object's unknown fields beside it. */
  function Merged(rendered: Json, existing: Option<Json>, known: seq<string>): Json {
    if existing.Some? && existing.value.Obj? then
      if rendered.Obj? then Obj(rendered.fields + Unknown(existing, known)) else existing.value
    else rendered
  }

  /** `merge_unknown_top_level`. */
  method MergeUnknownTopLevel(rendered: Json, existing: Option<Json>, known: seq<string>) returns (r: Json)
    ensures r == Merged(rendered, existing, known)
  {
    if existing.None? || !existing.value.Obj? {
      return rendered;
    }
    var have := existing.value.fields;
    if !rendered.Obj? {
      return Obj(have);
    }
    var obj, todo := rendered.fields, have.Keys;
    while todo != {}
      invariant todo <= have.Keys
      invariant obj.Keys == rendered.fields.Keys + set k | k in have && k !in todo && k !in known
      invariant forall k | k in obj :: obj[k] == if k in have && k !in todo && k !in known then have[k] else rendered.fields[k]
    {
      var key :| key in todo;
      todo := todo - {key};
      if key !in known {
        obj := obj[key := have[key]];
      }
    }
    r := Obj(obj);
    assert obj == rendered.fields + Unknown(existing, known);
  }

  // ---------------------------------------------------------------- the files of a bot

  /** One derived file: its name, what is rendered into it, and the keys that render owns. */
  datatype Output = Output(file: string, payload: Json, known: seq<string>)

  /** `render`, and `render_for_drift`, which is the same. */
  function Outputs(id: string, c: BotConfig): seq<Output> {
    match c.bot.backend
    case NapCat =>
      [Output("onebot11_" + id + ".json", NapcatOnebot(c), NAPCAT_ONEBOT_KNOWN),
       Output("napcat_" + id + ".json", NapcatOwn(c.advanced), NAPCAT_OWN_KNOWN)]
    case SnowLuma =>
      [Output("onebot_" + id + ".json", SnowlumaOnebot(c), SNOWLUMA_ONEBOT_KNOWN)]
  }

  type DerivedFiles = map<string, Json>

  function Existing(files: DerivedFiles, file: string): Option<Json> {
    if file in files then Some(files[file]) else None
  }

  /** Writing what `render_with_existing` gives. */
  function WriteOutputs(files: DerivedFiles, outputs: seq<Output>): DerivedFiles {
    if outputs == [] then files
    else
      var n := |outputs| - 1;
      var o := outputs[n];
      WriteOutputs(files, outputs[..n])[o.file := Merged(o.payload, Existing(files, o.file), o.known)]
  }

  function Rendered(id: string, c: BotConfig, files: DerivedFiles): DerivedFiles {
    WriteOutputs(files, Outputs(id, c))
  }

  /** Rendering a file produces an object whose keys the render owns, and file names differ. */
  ghost predicate WellFormed(outputs: seq<Output>) {
    && (forall o | o in outputs :: o.payload.Obj? && o.payload.fields.Keys <= Elements(o.known))
    && (forall i, j | 0 <= i < j < |outputs| :: outputs[i].file != outputs[j].file)
  }

  lemma NapcatOnebotKnown(c: BotConfig)
    ensures NapcatOnebot(c).Obj? && NapcatOnebot(c).fields.Keys <= Elements(NAPCAT_ONEBOT_KNOWN)
  {
    var known := NAPCAT_ONEBOT_KNOWN;
    assert known[0] in known && known[1] in known && known[2] in known && known[3] in known;
  }

  lemma OwnKeys(a: Advanced)
    ensures NapcatOwn(a).Obj? && NapcatOwn(a).fields.Keys <= {"fileLog", "consoleLog", "fileLogLevel", "consoleLogLevel", "packetBackend",
                                         "packetServer", "o3HookMode", "bypass"}
  {
    hide EncodeLevel, EncodeHook, EncodeBypass;
  }

  lemma NapcatOwnKnown(a: Advanced)
    ensures NapcatOwn(a).Obj? && NapcatOwn(a).fields.Keys <= Elements(NAPCAT_OWN_KNOWN)
  {
    hide NapcatOwn;
    var known := NAPCAT_OWN_KNOWN;
    assert known[0] in known && known[1] in known && known[2] in known && known[3] in known;
    assert known[4] in known && known[5] in known && known[6] in known && known[7] in known;
    OwnKeys(a);
  }

  lemma SnowlumaOnebotKnown(c: BotConfig)
    ensures SnowlumaOnebot(c).Obj? && SnowlumaOnebot(c).fields.Keys <= Elements(SNOWLUMA_ONEBOT_KNOWN)
  {
    var known := SNOWLUMA_ONEBOT_KNOWN;
    assert known[0] in known && known[1] in known && known[2] in known;
  }

  /** Every render of every configuration is well-formed. */
  lemma OutputsWellFormed(id: string, c: BotConfig)
    ensures WellFormed(Outputs(id, c))
  {
    hide NapcatOnebot, NapcatOwn, SnowlumaOnebot;
    NapcatOnebotKnown(c);
    NapcatOwnKnown(c.advanced);
    SnowlumaOnebotKnown(c);
    assert ("onebot11_" + id + ".json")[0] != ("napcat_" + id + ".json")[0];
  }

  /** SnowLuma is never left without a listener, and never reconnects faster than the floor. */
  lemma SnowlumaAlwaysListens(c: Connect)
    ensures var n := SnowlumaNetworks(c).fields;
      "httpServers" in n && "wsServers" in n && n["httpServers"].Arr? && n["wsServers"].Arr?
      && (n["httpServers"].items != [] || n["wsServers"].items != [])
  {
  }

  lemma SnowlumaReconnectFloor(c: Connect, i: nat)
    requires i < |c.wsClients|
    ensures var n := SnowlumaNetworks(c).fields;
      "wsClients" in n && n["wsClients"].Arr? && i < |n["wsClients"].items| && n["wsClients"].items[i].Obj?
      && "reconnectIntervalMs" in n["wsClients"].items[i].fields
      && var shown := n["wsClients"].items[i].fields["reconnectIntervalMs"];
         shown.Int? && shown.i >= MIN_RECONNECT_MS && shown.i >= c.wsClients[i].reconnect
         && (shown.i == MIN_RECONNECT_MS || shown.i == c.wsClients[i].reconnect)
  {
    assert SnowlumaNetworks(c).fields["wsClients"].items[i] == SnowlumaWsClient(c.wsClients[i]);
  }

  // ---------------------------------------------------------------- NapCat's file in Desktop's own terms

  // NapCat keeps Desktop's field names.  Read back with Desktop's decoder, what is rendered is the
  // configuration itself, but for the fields NapCat has no place for.

  lemma NapcatBaseReads(m: Fields, b: BaseFields)
    requires "name" in m && m["name"] == Str(b.name) && "enable" in m && m["enable"] == Bool(b.enable)
    requires "messagePostFormat" in m && m["messagePostFormat"] == EncodeFormat(b.format)
    requires "token" in m && m["token"] == Str(b.token)
    requires if b.debug then "debug" in m && m["debug"] == Bool(true) else "debug" !in m
    ensures DecodeBase(m) == Some(b)
  {
  }

  lemma NapcatHttpServerReads(s: HttpServer)
    ensures DecodeHttpServer(NapcatHttpServer(s)) == Some(s)
  {
    hide DecodeBase;
    NapcatHttpServerBase(s);
  }

  lemma NapcatHttpServerBase(s: HttpServer)
    ensures DecodeBase(NapcatHttpServer(s).fields) == Some(s.base)
  {
    hide DecodeBase, EncodeFormat;
    NapcatBaseReads(NapcatHttpServer(s).fields, s.base);
  }

  lemma NapcatHttpSseServerReads(s: HttpSseServer)
    ensures DecodeHttpSseServer(NapcatHttpSseServer(s)) == Some(s)
  {
    hide DecodeBase;
    NapcatHttpSseServerBase(s);
  }

  lemma NapcatHttpSseServerBase(s: HttpSseServer)
    ensures DecodeBase(NapcatHttpSseServer(s).fields) == Some(s.base)
  {
    hide DecodeBase, EncodeFormat;
    NapcatBaseReads(NapcatHttpSseServer(s).fields, s.base);
  }

  function WithoutTimeout(c: HttpClient): HttpClient {
    c.(timeoutMs := None)
  }

  lemma NapcatHttpClientReads(c: HttpClient)
    ensures DecodeHttpClient(NapcatHttpClient(c)) == Some(WithoutTimeout(c))
  {
    hide DecodeBase;
    NapcatHttpClientBase(c);
  }

  lemma NapcatHttpClientBase(c: HttpClient)
    ensures DecodeBase(NapcatHttpClient(c).fields) == Some(c.base)
  {
    hide DecodeBase, EncodeFormat;
    NapcatBaseReads(NapcatHttpClient(c).fields, c.base);
  }

  function AnyRoleServer(s: WsServer): WsServer {
    s.(role := Universal)
  }

  lemma NapcatWsServerReads(s: WsServer)
    ensures DecodeWsServer(NapcatWsServer(s)) == Some(AnyRoleServer(s))
  {
    hide DecodeBase, EncodeFormat, NapcatWsServer, ReqString, ReqU16, DefBool, DefU32, DefString, DefRole;
    NapcatWsServerBase(s);
    NapcatWsServerPlace(s);
    NapcatWsServerRest(s);
  }

  lemma NapcatWsServerPlace(s: WsServer)
    ensures NapcatWsServer(s).Obj? && var m := NapcatWsServer(s).fields;
      ReqString(m, "host") == Some(s.host) && ReqU16(m, "port") == Some(s.port)
      && DefString(m, "path", "/") == Some(s.path) && DefRole(m, "role") == Some(Universal)
  {
    hide EncodeFormat;
  }

  lemma NapcatWsServerRest(s: WsServer)
    ensures NapcatWsServer(s).Obj? && var m := NapcatWsServer(s).fields;
      DefBool(m, "reportSelfMessage", false) == Some(s.reportSelf)
      && DefBool(m, "enableForcePushEvent", false) == Some(s.forcePush)
      && DefU32(m, "heartInterval", 30000) == Some(s.heart)
  {
    hide EncodeFormat;
  }

  lemma NapcatWsServerBase(s: WsServer)
    ensures DecodeBase(NapcatWsServer(s).fields) == Some(s.base)
  {
    hide DecodeBase, EncodeFormat;
    NapcatBaseReads(NapcatWsServer(s).fields, s.base);
  }

  function AnyRoleClient(c: WsClient): WsClient {
    c.(role := Universal)
  }

  lemma NapcatWsClientReads(c: WsClient)
    ensures DecodeWsClient(NapcatWsClient(c)) == Some(AnyRoleClient(c))
  {
    hide DecodeBase;
    NapcatWsClientBase(c);
  }

  lemma NapcatWsClientBase(c: WsClient)
    ensures DecodeBase(NapcatWsClient(c).fields) == Some(c.base)
  {
    hide DecodeBase, EncodeFormat;
    NapcatBaseReads(NapcatWsClient(c).fields, c.base);
  }

  lemma NapcatListReads<T>(m: Fields, k: string, write: T -> Json, read: Json -> Option<T>, keep: T -> T, ts: seq<T>)
    requires k in m && m[k] == Arr(MapSeq(write, ts))
    requires forall i | 0 <= i < |ts| :: read(write(ts[i])) == Some(keep(ts[i]))
    ensures DefList(m, k, read) == Some(MapSeq(keep, ts))
  {
    DecodeSeqOf(read, MapSeq(write, ts), MapSeq(keep, ts));
  }

  /** What of a connect section NapCat has a place for. */
  function KnownToNapcat(c: Connect): Connect {
    c.(httpClients := MapSeq(WithoutTimeout, c.httpClients), wsServers := MapSeq(AnyRoleServer, c.wsServers),
       wsClients := MapSeq(AnyRoleClient, c.wsClients))
  }

  lemma NapcatServersRead(m: Fields, c: Connect)
    requires "httpServers" in m && m["httpServers"] == Arr(MapSeq(NapcatHttpServer, c.httpServers))
    requires "httpSseServers" in m && m["httpSseServers"] == Arr(MapSeq(NapcatHttpSseServer, c.httpSseServers))
    ensures DefList(m, "httpServers", DecodeHttpServer) == Some(c.httpServers)
    ensures DefList(m, "httpSseServers", DecodeHttpSseServer) == Some(c.httpSseServers)
  {
    hide DecodeHttpServer, NapcatHttpServer, DecodeHttpSseServer, NapcatHttpSseServer;
    forall i | 0 <= i < |c.httpServers| ensures DecodeHttpServer(NapcatHttpServer(c.httpServers[i])) == Some(c.httpServers[i]) {
      NapcatHttpServerReads(c.httpServers[i]);
    }
    DecodeListOf(m, "httpServers", NapcatHttpServer, DecodeHttpServer, c.httpServers);
    forall i | 0 <= i < |c.httpSseServers|
      ensures DecodeHttpSseServer(NapcatHttpSseServer(c.httpSseServers[i])) == Some(c.httpSseServers[i])
    {
      NapcatHttpSseServerReads(c.httpSseServers[i]);
    }
    DecodeListOf(m, "httpSseServers", NapcatHttpSseServer, DecodeHttpSseServer, c.httpSseServers);
  }

  lemma NapcatOthersRead(m: Fields, c: Connect)
    requires "httpClients" in m && m["httpClients"] == Arr(MapSeq(NapcatHttpClient, c.httpClients))
    requires "websocketServers" in m && m["websocketServers"] == Arr(MapSeq(NapcatWsServer, c.wsServers))
    requires "websocketClients" in m && m["websocketClients"] == Arr(MapSeq(NapcatWsClient, c.wsClients))
    ensures DefList(m, "httpClients", DecodeHttpClient) == Some(KnownToNapcat(c).httpClients)
    ensures DefList(m, "websocketServers", DecodeWsServer) == Some(KnownToNapcat(c).wsServers)
    ensures DefList(m, "websocketClients", DecodeWsClient) == Some(KnownToNapcat(c).wsClients)
  {
    hide DecodeHttpClient, NapcatHttpClient, DecodeWsServer, NapcatWsServer, DecodeWsClient, NapcatWsClient;
    forall i | 0 <= i < |c.httpClients|
      ensures DecodeHttpClient(NapcatHttpClient(c.httpClients[i])) == Some(WithoutTimeout(c.httpClients[i]))
    {
      NapcatHttpClientReads(c.httpClients[i]);
    }
    NapcatListReads(m, "httpClients", NapcatHttpClient, DecodeHttpClient, WithoutTimeout, c.httpClients);
    forall i | 0 <= i < |c.wsServers| ensures DecodeWsServer(NapcatWsServer(c.wsServers[i])) == Some(AnyRoleServer(c.wsServers[i])) {
      NapcatWsServerReads(c.wsServers[i]);
    }
    NapcatListReads(m, "websocketServers", NapcatWsServer, DecodeWsServer, AnyRoleServer, c.wsServers);
    forall i | 0 <= i < |c.wsClients| ensures DecodeWsClient(NapcatWsClient(c.wsClients[i])) == Some(AnyRoleClient(c.wsClients[i])) {
      NapcatWsClientReads(c.wsClients[i]);
    }
    NapcatListReads(m, "websocketClients", NapcatWsClient, DecodeWsClient, AnyRoleClient, c.wsClients);
  }

  /** The rendered network reads back as the connect section. */
  lemma NapcatConnectReads(c: Connect)
    ensures DecodeConnect(NapcatConnect(c)) == Some(KnownToNapcat(c))
  {
    hide DecodeConnect, NapcatHttpServer, NapcatHttpSseServer, NapcatHttpClient, NapcatWsServer, NapcatWsClient, DefList;
    var m := NapcatConnect(c).fields;
    NapcatServersRead(m, c);
    NapcatOthersRead(m, c);
    DecodeConnectOf(m, KnownToNapcat(c));
  }

  // ---------------------------------------------------------------- merging twice

  /** What a render leaves behind depends on the existing file only through its unknown fields:
      an earlier render, of any configuration, leaves no trace. */
  lemma MergeForgetsEarlierRender(earlier: Json, later: Json, existing: Option<Json>, known: seq<string>)
    requires earlier.Obj? && later.Obj? && earlier.fields.Keys <= Elements(known) && later.fields.Keys <= Elements(known)
    ensures Merged(later, Some(Merged(earlier, existing, known)), known) == Merged(later, existing, known)
  {
    var once := Merged(earlier, existing, known);
    assert Unknown(Some(once), known) == Unknown(existing, known);
    assert later.fields + map[] == later.fields;
  }

  lemma {:induction false} WriteOutputsAt(files: DerivedFiles, outputs: seq<Output>, i: nat)
    requires i < |outputs| && forall i, j | 0 <= i < j < |outputs| :: outputs[i].file != outputs[j].file
    ensures outputs[i].file in WriteOutputs(files, outputs)
    ensures WriteOutputs(files, outputs)[outputs[i].file]
      == Merged(outputs[i].payload, Existing(files, outputs[i].file), outputs[i].known)
  {
    var n := |outputs| - 1;
    if i < n {
      WriteOutputsAt(files, outputs[..n], i);
    }
  }

  lemma {:induction false} WriteOutputsElsewhere(files: DerivedFiles, outputs: seq<Output>, file: string)
    requires forall o | o in outputs :: o.file != file
    ensures file in WriteOutputs(files, outputs) <==> file in files
    ensures file in files ==> WriteOutputs(files, outputs)[file] == files[file]
  {
    if outputs != [] {
      WriteOutputsElsewhere(files, outputs[..|outputs| - 1], file);
      assert outputs[|outputs| - 1] in outputs;
    }
  }

  /** Renders that write the same files with the same known keys. */
  ghost predicate SameTargets(xs: seq<Output>, ys: seq<Output>) {
    |xs| == |ys| && forall i | 0 <= i < |xs| :: xs[i].file == ys[i].file && xs[i].known == ys[i].known
  }

  lemma RenderTwice(files: DerivedFiles, xs: seq<Output>, ys: seq<Output>)
    requires WellFormed(xs) && WellFormed(ys) && SameTargets(xs, ys)
    ensures WriteOutputs(WriteOutputs(files, xs), ys) == WriteOutputs(files, ys)
  {
    var once := WriteOutputs(files, xs);
    var twice, direct := WriteOutputs(once, ys), WriteOutputs(files, ys);
    forall file
      ensures file in twice <==> file in direct
      ensures file in twice ==> twice[file] == direct[file]
    {
      if i: nat :| i < |ys| && ys[i].file == file {
        WriteOutputsAt(files, xs, i);
        WriteOutputsAt(once, ys, i);
        WriteOutputsAt(files, ys, i);
        assert xs[i] in xs && ys[i] in ys;
        MergeForgetsEarlierRender(xs[i].payload, ys[i].payload, Existing(files, file), ys[i].known);
      } else {
        NotATarget(xs, ys, file);
        WriteOutputsElsewhere(files, xs, file);
        WriteOutputsElsewhere(once, ys, file);
        WriteOutputsElsewhere(files, ys, file);
      }
    }
    assert twice == direct;
  }

  lemma NotATarget(xs: seq<Output>, ys: seq<Output>, file: string)
    requires SameTargets(xs, ys) && forall i: nat | i < |ys| :: ys[i].file != file
    ensures forall o | o in xs + ys :: o.file != file
  {
    forall o | o in xs + ys ensures o.file != file {
      var i :| 0 <= i < |xs + ys| && (xs + ys)[i] == o;
      assert o == if i < |xs| then xs[i] else ys[i - |xs|];
      assert ys[if i < |xs| then i else i - |xs|].file != file;
    }
  }

  lemma BackendFixesTargets(id: string, c: BotConfig, d: BotConfig)
    requires c.bot.backend == d.bot.backend
    ensures SameTargets(Outputs(id, c), Outputs(id, d))
  {
    hide NapcatOnebot, NapcatOwn, SnowlumaOnebot;
  }

  /** Rendering one configuration and then another of the same backend is rendering the second:
      every user field survives, nothing of the first configuration does. */
  lemma LaterRenderWins(id: string, earlier: BotConfig, later: BotConfig, files: DerivedFiles)
    requires earlier.bot.backend == later.bot.backend
    ensures Rendered(id, later, Rendered(id, earlier, files)) == Rendered(id, later, files)
  {
    hide Outputs;
    OutputsWellFormed(id, earlier);
    OutputsWellFormed(id, later);
    BackendFixesTargets(id, earlier, later);
    RenderTwice(files, Outputs(id, earlier), Outputs(id, later));
  }

  // ---------------------------------------------------------------- what is rendered is not drift

  /** The entry of a user's own top-level field. */
  function UserField(file: string, k: string, v: Json): DriftEntry {
    DriftEntry(file, [Key(k)], NormField(k, v), Null)
  }

  function TopField(file: string, k: string, v: Json): DriftEntry {
    DriftEntry(file, [Key(k)], v, Null)
  }

  function NormFields(m: Fields): Fields {
    map k | k in m :: NormField(k, m[k])
  }

  lemma ShownFields(file: string, extra: Fields, d: DriftEntry)
    ensures var shown := NormFields(extra);
      (exists k :: k in shown && d == TopField(file, k, shown[k]))
      <==> (exists k :: k in extra && d == UserField(file, k, extra[k]))
  {
    hide NormField;
    var shown := NormFields(extra);
    if k :| k in extra && d == UserField(file, k, extra[k]) {
      assert d == TopField(file, k, shown[k]);
    }
    if k :| k in shown && d == TopField(file, k, shown[k]) {
      assert k in extra && d == UserField(file, k, extra[k]);
    }
  }

  /** Comparing a document with an extension of it by new top-level fields. */
  lemma ExtensionEntries(ctx: Context, e: Fields, extra: Fields, d: DriftEntry)
    requires e.Keys !! extra.Keys
    ensures IsEntry(ctx, [], Obj(e), Obj(e + extra), d)
      <==> exists k :: k in extra && d == TopField(ctx.file, k, extra[k])
    ensures IsEntry(ctx, [], Obj(e), Obj(e + extra), d) ==> AddedSide([], Obj(e), d)
  {
    hide EmptyEquivalenceAllowed, Dotted;
    var x, y := Obj(e), Obj(e + extra);
    RootEntry(ctx, x, y, d);
    if k :| k in extra && d == TopField(ctx.file, k, extra[k]) {
      assert At(y, [Key(k)]) == Some(extra[k]) && At(x, [Key(k)]) == None;
      assert At(x, []) == Some(x) && At(y, []) == Some(y);
      assert !Conflict(ctx, [], x, y, []);
      assert [Key(k)][..0] == [];
      assert forall n | 0 <= n < 1 :: [Key(k)][..n] == [];
    }
    if IsEntry(ctx, [], x, y, d) {
      ExtensionConflict(ctx, e, extra, d.at);
      var k := d.at[0].name;
      assert d.at[..1] == [Key(k)];
      assert At(y, [Key(k)]) == Some(extra[k]) && At(x, [Key(k)]) == None;
      TopmostShort(ctx, [], x, y, d.at, 1);
      assert d.at == [Key(k)];
    }
  }

  lemma ExtensionConflict(ctx: Context, e: Fields, extra: Fields, p: Path)
    requires e.Keys !! extra.Keys
    ensures Conflict(ctx, [], Obj(e), Obj(e + extra), p) ==>
      p != [] && p[0].Key? && p[0].name in extra && Conflict(ctx, [], Obj(e), Obj(e + extra), [p[0]])
  {
    hide EmptyEquivalenceAllowed, Dotted;
    var x, y := Obj(e), Obj(e + extra);
    if p == [] {
      assert At(x, p) == Some(x) && At(y, p) == Some(y);
    } else if p[0].Key? && p[0].name in e {
      assert At(x, p) == At(e[p[0].name], p[1..]) == At(y, p);
    } else if p[0].Key? && p[0].name in extra {
      assert At(y, [p[0]]) == Some(extra[p[0].name]) && At(x, [p[0]]) == None;
    }
  }

  lemma NormOfMerged(rendered: Json, existing: Option<Json>, known: seq<string>)
    requires rendered.Obj? && rendered.fields.Keys <= Elements(known)
    ensures var shown := NormFields(Unknown(existing, known));
      Norm(rendered).Obj? && Norm(rendered).fields.Keys !! shown.Keys
      && Norm(Merged(rendered, existing, known)) == Obj(Norm(rendered).fields + shown)
  {
    var extra := Unknown(existing, known);
    var merged := Merged(rendered, existing, known);
    assert merged == Obj(rendered.fields + extra);
    assert Norm(merged).fields == Norm(rendered).fields + NormFields(extra);
  }

  // ---------------------------------------------------------------- the whole report

  /** `d` is an entry of the comparison of one derived file that exists. */
  ghost predicate FileEntry(backend: Backend, o: Output, files: DerivedFiles, d: DriftEntry) {
    o.file in files && IsEntry(FileContext(backend, o.file), [], Norm(o.payload), Norm(files[o.file]), d)
  }

  ghost predicate Report(backend: Backend, outputs: seq<Output>, files: DerivedFiles,
                         added: seq<DriftEntry>, modified: seq<DriftEntry>) {
    && (forall d :: d in added <==>
          exists o :: o in outputs && FileEntry(backend, o, files, d) && AddedSide([], Norm(o.payload), d))
    && (forall d :: d in modified <==>
          exists o :: o in outputs && FileEntry(backend, o, files, d) && !AddedSide([], Norm(o.payload), d))
  }

  lemma ReportOneMore(backend: Backend, outputs: seq<Output>, o: Output, files: DerivedFiles,
                      added: seq<DriftEntry>, modified: seq<DriftEntry>,
                      add: seq<DriftEntry>, mod: seq<DriftEntry>)
    requires Report(backend, outputs, files, added, modified)
    requires if o.file in files
             then Exact(FileContext(backend, o.file), [], Norm(o.payload), Norm(files[o.file]), add, mod)
             else add == [] && mod == []
    ensures Report(backend, outputs + [o], files, added + add, modified + mod)
  {
    hide IsEntry, Norm;
    assert forall x :: x in outputs + [o] <==> x in outputs || x == o;
    forall d
      ensures d in added + add <==>
        exists x :: x in outputs + [o] && FileEntry(backend, x, files, d) && AddedSide([], Norm(x.payload), d)
      ensures d in modified + mod <==>
        exists x :: x in outputs + [o] && FileEntry(backend, x, files, d) && !AddedSide([], Norm(x.payload), d)
    {
      assert d in add <==> FileEntry(backend, o, files, d) && AddedSide([], Norm(o.payload), d);
      assert d in mod <==> FileEntry(backend, o, files, d) && !AddedSide([], Norm(o.payload), d);
    }
  }

  /** A derived file as `detect_drift` finds it. */
  datatype FoundFile = Unreadable | NotJson | Readable(v: Json)

  datatype DriftError = Io(file: string) | Parse(file: string)

  type FoundFiles = map<string, FoundFile>

  function Documents(found: FoundFiles): DerivedFiles {
    map k | k in found && found[k].Readable? :: found[k].v
  }

  predicate Faulty(found: FoundFiles, file: string) {
    file in found && !found[file].Readable?
  }

  predicate IsFaultOf(found: FoundFiles, file: string, error: DriftError) {
    file in found && ((found[file].Unreadable? && error == Io(file)) || (found[file].NotJson? && error == Parse(file)))
  }

  /** `detect_drift`: a file that is missing is skipped, one that is there but cannot be read or
      parsed ends the comparison. */
  method DetectDrift(id: string, c: BotConfig, found: FoundFiles)
    returns (error: Option<DriftError>, added: seq<DriftEntry>, modified: seq<DriftEntry>)
    ensures error.None? <==> forall o | o in Outputs(id, c) :: !Faulty(found, o.file)
    ensures error.Some? ==> exists o | o in Outputs(id, c) :: IsFaultOf(found, o.file, error.value)
    ensures error.None? ==> Report(c.bot.backend, Outputs(id, c), Documents(found), added, modified)
  {
    hide Outputs, Norm, IsEntry, FileEntry;
    var outputs := Outputs(id, c);
    added, modified := [], [];
    for i := 0 to |outputs|
      invariant forall j | 0 <= j < i :: !Faulty(found, outputs[j].file)
      invariant Report(c.bot.backend, outputs[..i], Documents(found), added, modified)
    {
      var file := outputs[i].file;
      if Faulty(found, file) {
        return Some(if found[file].Unreadable? then Io(file) else Parse(file)), [], [];
      }
      var add, mod: seq<DriftEntry> := [], [];
      if file in found {
        add, mod := CompareFile(c.bot.backend, file, outputs[i].payload, found[file].v);
      }
      ReportOneMore(c.bot.backend, outputs[..i], outputs[i], Documents(found), added, modified, add, mod);
      assert outputs[..i + 1] == outputs[..i] + [outputs[i]];
      added, modified := added + add, modified + mod;
    }
    assert outputs[..|outputs|] == outputs;
    return None, added, modified;
  }

  /** The user's own fields of the derived files, as drift would list them. */
  ghost predicate IsUserField(outputs: seq<Output>, files: DerivedFiles, d: DriftEntry) {
    exists o, k :: o in outputs && k in Unknown(Existing(files, o.file), o.known)
      && d == UserField(o.file, k, Unknown(Existing(files, o.file), o.known)[k])
  }

  lemma MergedFileEntry(backend: Backend, o: Output, files: DerivedFiles, now: DerivedFiles, d: DriftEntry)
    requires o.payload.Obj? && o.payload.fields.Keys <= Elements(o.known)
    requires o.file in now && now[o.file] == Merged(o.payload, Existing(files, o.file), o.known)
    ensures var extra := Unknown(Existing(files, o.file), o.known);
      FileEntry(backend, o, now, d) <==> exists k :: k in extra && d == UserField(o.file, k, extra[k])
    ensures FileEntry(backend, o, now, d) ==> AddedSide([], Norm(o.payload), d)
  {
    hide Norm, NormFields, Unknown, Merged, UserField, TopField, IsEntry, AddedSide;
    var extra := Unknown(Existing(files, o.file), o.known);
    var shown := NormFields(extra);
    NormOfMerged(o.payload, Existing(files, o.file), o.known);
    ExtensionEntries(FileContext(backend, o.file), Norm(o.payload).fields, shown, d);
    ShownFields(o.file, extra, d);
  }

  /** After rendering over any files whatever, the report has no modified entry, and its added
      entries are exactly the user's fields outside the known keys. */
  lemma RenderedIsNotDrift(id: string, c: BotConfig, files: DerivedFiles,
                           added: seq<DriftEntry>, modified: seq<DriftEntry>)
    requires Report(c.bot.backend, Outputs(id, c), Rendered(id, c, files), added, modified)
    ensures modified == []
    ensures forall d :: d in added <==> IsUserField(Outputs(id, c), files, d)
  {
    hide Outputs, Norm, IsEntry, FileEntry, WriteOutputs;
    var outputs, now := Outputs(id, c), Rendered(id, c, files);
    OutputsWellFormed(id, c);
    forall o, d | o in outputs
      ensures var extra := Unknown(Existing(files, o.file), o.known);
        FileEntry(c.bot.backend, o, now, d) <==> exists k :: k in extra && d == UserField(o.file, k, extra[k])
      ensures FileEntry(c.bot.backend, o, now, d) ==> AddedSide([], Norm(o.payload), d)
    {
      var i: nat :| i < |outputs| && outputs[i] == o;
      WriteOutputsAt(files, outputs, i);
      MergedFileEntry(c.bot.backend, o, files, now, d);
    }
    EmptyIfNothingIn(modified);
  }
}
