/**
 What a backend finds in its rendered files, field by field.
 */
module RenderReads {
  import opened Common
  import opened JsonModel
  import opened BotConfigModel
  import opened BotCodec
  import opened Render

  /** An object with exactly these keys. */
  predicate HasKeys(v: Json, keys: set<string>) {
    v.Obj? && v.fields.Keys == keys
  }

  function FormatText(f: MessageFormat): string {
    if f.ArrayFormat? then "array" else "string"
  }

  function RoleText(r: WsRole): string {
    match r case Api => "Api" case Event => "Event" case Universal => "Universal"
  }

  // ---------------------------------------------------------------- SnowLuma

  /** What every SnowLuma entry says of its base. */
  predicate ShowsBase(v: Json, b: BaseFields, reportSelf: bool) {
    && Get(v, "name") == Some(Str(b.name)) && Get(v, "enabled") == Some(Bool(b.enable))
    && Get(v, "messageFormat") == Some(Str(FormatText(b.format))) && Get(v, "accessToken") == Some(Str(b.token))
    && Get(v, "reportSelfMessage") == Some(Bool(reportSelf))
  }

  predicate ShowsListener(v: Json, host: string, port: nat, path: string) {
    Get(v, "host") == Some(Str(host)) && Get(v, "port") == Some(Int(port)) && Get(v, "path") == Some(Str(path))
  }

  predicate ShowsHttpServer(v: Json, s: HttpServer) {
    && HasKeys(v, {"name", "enabled", "messageFormat", "accessToken", "reportSelfMessage", "host", "port", "path"})
    && ShowsBase(v, s.base, false) && ShowsListener(v, s.host, s.port, s.path)
  }

  predicate ShowsWsServer(v: Json, s: WsServer) {
    && HasKeys(v, {"name", "enabled", "messageFormat", "accessToken", "reportSelfMessage", "host", "port", "path", "role"})
    && ShowsBase(v, s.base, s.reportSelf) && ShowsListener(v, s.host, s.port, s.path)
    && Get(v, "role") == Some(Str(RoleText(s.role)))
  }

  predicate ShowsHttpClient(v: Json, c: HttpClient) {
    && v.Obj? && ShowsBase(v, c.base, c.reportSelf) && Get(v, "url") == Some(Str(c.url))
    && Get(v, "timeoutMs") == match c.timeoutMs case None => None case Some(t) => Some(Int(t))
  }

  predicate ShowsWsClient(v: Json, c: WsClient) {
    && v.Obj? && ShowsBase(v, c.base, c.reportSelf) && Get(v, "url") == Some(Str(c.url))
    && Get(v, "reconnectIntervalMs") == Some(Int(if c.reconnect < 1000 then 1000 else c.reconnect))
    && Get(v, "role") == Some(Str(RoleText(c.role)))
  }

  /** A list of entries, one for each of these, in order. */
  predicate ShowsAll<T(!new)>(v: Option<Json>, ts: seq<T>, shows: (Json, T) -> bool) {
    v.Some? && v.value.Arr? && |v.value.items| == |ts| && forall i | 0 <= i < |ts| :: shows(v.value.items[i], ts[i])
  }

  lemma ShownList<T(!new)>(write: T -> Json, shows: (Json, T) -> bool, ts: seq<T>)
    requires forall t :: shows(write(t), t)
    ensures ShowsAll(Some(Arr(MapSeq(write, ts))), ts, shows)
  {
  }

  lemma HttpServerShown(s: HttpServer)
    ensures ShowsHttpServer(SnowlumaHttpServer(s), s)
  {
  }

  lemma WsServerShown(s: WsServer)
    ensures ShowsWsServer(SnowlumaWsServer(s), s)
  {
  }

  lemma HttpClientShown(c: HttpClient)
    ensures ShowsHttpClient(SnowlumaHttpClient(c), c)
  {
  }

  lemma WsClientShown(c: WsClient)
    ensures ShowsWsClient(SnowlumaWsClient(c), c)
  {
  }

  /** The servers SnowLuma is given: the configured ones, or one open listener of each kind if there
      are none at all. */
  predicate ShowsServers(networks: Json, c: Connect) {
    if c.httpServers == [] && c.wsServers == [] then
      var base := BaseFields(true, "", ArrayFormat, "", false);
      && ShowsAll(Get(networks, "httpServers"),
                  [HttpServer(base.(name := "http-default"), "0.0.0.0", 3000, false, false, "/")], ShowsHttpServer)
      && ShowsAll(Get(networks, "wsServers"),
                  [WsServer(base.(name := "ws-default"), "0.0.0.0", 3001, false, false, 30000, "/", Universal)], ShowsWsServer)
    else
      ShowsAll(Get(networks, "httpServers"), c.httpServers, ShowsHttpServer)
      && ShowsAll(Get(networks, "wsServers"), c.wsServers, ShowsWsServer)
  }

  predicate ShowsClients(networks: Json, c: Connect) {
    && ShowsAll(Get(networks, "httpClients"), c.httpClients, ShowsHttpClient)
    && ShowsAll(Get(networks, "wsClients"), c.wsClients, ShowsWsClient)
  }

  lemma NetworksShown(c: Connect)
    ensures ShowsServers(SnowlumaNetworks(c), c) && ShowsClients(SnowlumaNetworks(c), c)
    ensures HasKeys(SnowlumaNetworks(c), {"httpServers", "httpClients", "wsServers", "wsClients"})
  {
    hide SnowlumaHttpServer, SnowlumaHttpClient, SnowlumaWsServer, SnowlumaWsClient;
    hide ShowsHttpServer, ShowsHttpClient, ShowsWsServer, ShowsWsClient;
    forall s ensures ShowsHttpServer(SnowlumaHttpServer(s), s) { HttpServerShown(s); }
    forall s ensures ShowsWsServer(SnowlumaWsServer(s), s) { WsServerShown(s); }
    forall s ensures ShowsHttpClient(SnowlumaHttpClient(s), s) { HttpClientShown(s); }
    forall s ensures ShowsWsClient(SnowlumaWsClient(s), s) { WsClientShown(s); }
    ShownList(SnowlumaHttpServer, ShowsHttpServer, c.httpServers);
    ShownList(SnowlumaHttpServer, ShowsHttpServer, [FALLBACK_HTTP]);
    ShownList(SnowlumaWsServer, ShowsWsServer, c.wsServers);
    ShownList(SnowlumaWsServer, ShowsWsServer, [FALLBACK_WS]);
    ShownList(SnowlumaHttpClient, ShowsHttpClient, c.httpClients);
    ShownList(SnowlumaWsClient, ShowsWsClient, c.wsClients);
  }

  /** The one file of a SnowLuma bot. */
  lemma SnowlumaReads(id: string, c: BotConfig)
    requires c.bot.backend == SnowLuma
    ensures |Outputs(id, c)| == 1 && Outputs(id, c)[0].file == "onebot_" + id + ".json"
    ensures var v := Outputs(id, c)[0].payload;
      && Get(v, "networks").Some? && ShowsServers(Get(v, "networks").value, c.connect)
      && ShowsClients(Get(v, "networks").value, c.connect)
      && Get(v, "musicSignUrl") == Some(Str(c.bot.musicSignUrl))
      && (Get(v, "statusCommand").Some? <==> c.statusCommand.Some?)
      && (c.statusCommand.Some? ==> ShowsStatus(Get(v, "statusCommand").value, c.statusCommand.value))
  {
    hide ShowsServers, ShowsClients, SnowlumaNetworks;
    NetworksShown(c.connect);
  }

  predicate ShowsStatus(v: Json, s: StatusCommand) {
    && HasKeys(v, {"enabled", "swallow", "cooldownSeconds"}) && Get(v, "enabled") == Some(Bool(s.enabled))
    && Get(v, "swallow") == Some(Bool(s.swallow)) && Get(v, "cooldownSeconds") == Some(Int(s.cooldown))
  }

  // ---------------------------------------------------------------- NapCat

  function LevelText(l: LogLevel): string {
    match l case Debug => "debug" case Info => "info" case Error => "error"
  }

  predicate ShowsBypass(v: Json, b: Bypass) {
    && HasKeys(v, {"hook", "window", "module", "process", "container", "js"})
    && Get(v, "hook") == Some(Bool(b.hook)) && Get(v, "window") == Some(Bool(b.window))
    && Get(v, "module") == Some(Bool(b.mod)) && Get(v, "process") == Some(Bool(b.process))
    && Get(v, "container") == Some(Bool(b.container)) && Get(v, "js") == Some(Bool(b.js))
  }

  /** A switch that is left out when it is off. */
  function OnlyIfOn(on: bool): Option<Json> {
    if on then Some(Bool(true)) else None
  }

  /** The two files of a NapCat bot: the network, which `NapcatConnectReads` is about, and the switches. */
  lemma NapcatReads(id: string, c: BotConfig)
    requires c.bot.backend == NapCat
    ensures |Outputs(id, c)| == 2
    ensures Outputs(id, c)[0].file == "onebot11_" + id + ".json" && Outputs(id, c)[1].file == "napcat_" + id + ".json"
    ensures var v := Outputs(id, c)[0].payload;
      && Get(v, "network").Some?
      && DecodeConnect(Get(v, "network").value) == Some(KnownToNapcat(c.connect))
      && Get(v, "musicSignUrl") == Some(Str(c.bot.musicSignUrl))
      && Get(v, "enableLocalFile2Url") == Some(Bool(c.advanced.localFileToUrl))
      && Get(v, "parseMultMsg") == Some(Bool(c.advanced.parseMultMsg))
    ensures var v := Outputs(id, c)[1].payload;
      && Get(v, "fileLog") == OnlyIfOn(c.advanced.fileLog) && Get(v, "consoleLog") == OnlyIfOn(c.advanced.consoleLog)
      && Get(v, "fileLogLevel") == Some(Str(LevelText(c.advanced.fileLogLevel)))
      && Get(v, "consoleLogLevel") == Some(Str(LevelText(c.advanced.consoleLogLevel)))
      && Get(v, "packetBackend") == Some(Str(c.advanced.packetBackend))
      && Get(v, "packetServer") == (if c.advanced.packetServer == "" then None else Some(Str(c.advanced.packetServer)))
      && Get(v, "o3HookMode") == Some(Int(if c.advanced.hookMode.HookOn? then 1 else 0))
      && Get(v, "bypass").Some? && ShowsBypass(Get(v, "bypass").value, c.advanced.bypass)
  {
    hide NapcatConnect, NapcatOwn, ShowsBypass, DecodeConnect, EncodeBypass;
    NapcatConnectReads(c.connect);
    OwnReads(c.advanced);
  }

  lemma OwnReads(a: Advanced)
    ensures var v := NapcatOwn(a);
      && Get(v, "fileLog") == OnlyIfOn(a.fileLog) && Get(v, "consoleLog") == OnlyIfOn(a.consoleLog)
      && Get(v, "fileLogLevel") == Some(Str(LevelText(a.fileLogLevel)))
      && Get(v, "consoleLogLevel") == Some(Str(LevelText(a.consoleLogLevel)))
      && Get(v, "packetBackend") == Some(Str(a.packetBackend))
      && Get(v, "packetServer") == (if a.packetServer == "" then None else Some(Str(a.packetServer)))
      && Get(v, "o3HookMode") == Some(Int(if a.hookMode.HookOn? then 1 else 0))
      && Get(v, "bypass").Some? && ShowsBypass(Get(v, "bypass").value, a.bypass)
  {
    hide EncodeBypass, ShowsBypass;
    BypassShown(a.bypass);
  }

  lemma BypassShown(b: Bypass)
    ensures ShowsBypass(EncodeBypass(b), b)
  {
  }
}
