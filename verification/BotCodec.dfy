/** The JSON form of a bot configuration: what serde writes, and what it accepts back. */
module BotCodec {
  import opened Common
  import opened JsonModel
  import opened BotConfigModel

  type Fields = map<string, Json>

  // ---------------------------------------------------------------- encoding

  function EncodeFormat(f: MessageFormat): Json {
    Str(match f case ArrayFormat => "array" case StringFormat => "string")
  }

  function EncodeUnit(u: TimeUnit): Json {
    Str(match u case Minute => "m" case Hour => "h" case Day => "d" case Month => "mon" case Year => "year")
  }

  function EncodeLevel(l: LogLevel): Json {
    Str(match l case Debug => "debug" case Info => "info" case Error => "error")
  }

  function EncodeRole(r: WsRole): Json {
    Str(match r case Api => "Api" case Event => "Event" case Universal => "Universal")
  }

  function EncodeBackend(b: Backend): Json {
    Str(match b case NapCat => "napcat" case SnowLuma => "snowluma")
  }

  function EncodeDeployment(d: DeploymentType): Json {
    Str(match d case Native => "native" case Docker => "docker")
  }

  function EncodeTarget(t: RuntimeTarget): Json {
    Str(match t case Local => "local" case Server(id) => id)
  }

  function EncodeHook(h: HookMode): Json {
    Int(match h case HookOff => 0 case HookOn => 1)
  }

  function EncodeSchedule(s: RestartSchedule): Json {
    Obj(map["enable" := Bool(s.enable), "time_unit" := EncodeUnit(s.unit), "duration" := Int(s.duration)])
  }

  function EncodeBypass(b: Bypass): Json {
    Obj(map["hook" := Bool(b.hook), "window" := Bool(b.window), "module" := Bool(b.mod),
            "process" := Bool(b.process), "container" := Bool(b.container), "js" := Bool(b.js)])
  }

  function EncodeStartMode(m: StartMode): Json {
    Obj(map["mode" := Str(match m case ColdStart => "cold_start" case HotStart => "hot_start")])
  }

  /** A field that is skipped when absent. */
  function With(m: Fields, key: string, v: Option<Json>): Fields {
    match v case None => m case Some(x) => m[key := x]
  }

  function EncodeBasic(b: BotBasic): Fields {
    var m := map[
      "name" := Str(b.name), "QQID" := Int(b.qqId), "musicSignUrl" := Str(b.musicSignUrl),
      "autoRestartSchedule" := EncodeSchedule(b.schedule), "offlineAutoRestart" := Bool(b.offlineAutoRestart),
      "runtime_target" := EncodeTarget(b.target), "backend_type" := EncodeBackend(b.backend),
      "deploymentType" := EncodeDeployment(b.deployment)];
    With(m, "snowlumaStartMode", if b.startMode.None? then None else Some(EncodeStartMode(b.startMode.value)))
  }

  // The base fields of an entry are flattened into it.

  function EncodeHttpServer(s: HttpServer): Json {
    Obj(map["enable" := Bool(s.base.enable), "name" := Str(s.base.name),
            "messagePostFormat" := EncodeFormat(s.base.format), "token" := Str(s.base.token),
            "debug" := Bool(s.base.debug), "host" := Str(s.host), "port" := Int(s.port),
            "enableCors" := Bool(s.enableCors), "enableWebsocket" := Bool(s.enableWebsocket), "path" := Str(s.path)])
  }

  function EncodeHttpSseServer(s: HttpSseServer): Json {
    Obj(map["enable" := Bool(s.base.enable), "name" := Str(s.base.name),
            "messagePostFormat" := EncodeFormat(s.base.format), "token" := Str(s.base.token),
            "debug" := Bool(s.base.debug), "host" := Str(s.host), "port" := Int(s.port),
            "enableCors" := Bool(s.enableCors), "enableWebsocket" := Bool(s.enableWebsocket),
            "reportSelfMessage" := Bool(s.reportSelf)])
  }

  function EncodeHttpClient(c: HttpClient): Json {
    var m := map["enable" := Bool(c.base.enable), "name" := Str(c.base.name),
            "messagePostFormat" := EncodeFormat(c.base.format), "token" := Str(c.base.token),
            "debug" := Bool(c.base.debug), "url" := Str(c.url),
            "reportSelfMessage" := Bool(c.reportSelf)];
    Obj(With(m, "timeoutMs", if c.timeoutMs.None? then None else Some(Int(c.timeoutMs.value))))
  }

  function EncodeWsServer(s: WsServer): Json {
    Obj(map["enable" := Bool(s.base.enable), "name" := Str(s.base.name),
            "messagePostFormat" := EncodeFormat(s.base.format), "token" := Str(s.base.token),
            "debug" := Bool(s.base.debug), "host" := Str(s.host), "port" := Int(s.port),
            "reportSelfMessage" := Bool(s.reportSelf), "enableForcePushEvent" := Bool(s.forcePush),
            "heartInterval" := Int(s.heart), "path" := Str(s.path), "role" := EncodeRole(s.role)])
  }

  function EncodeWsClient(c: WsClient): Json {
    Obj(map["enable" := Bool(c.base.enable), "name" := Str(c.base.name),
            "messagePostFormat" := EncodeFormat(c.base.format), "token" := Str(c.base.token),
            "debug" := Bool(c.base.debug), "url" := Str(c.url), "reportSelfMessage" := Bool(c.reportSelf),
            "heartInterval" := Int(c.heart), "reconnectInterval" := Int(c.reconnect), "role" := EncodeRole(c.role)])
  }

  function MapSeq<A, B>(f: A -> B, xs: seq<A>): (r: seq<B>)
    ensures |r| == |xs| && forall i | 0 <= i < |xs| :: r[i] == f(xs[i])
  {
    seq(|xs|, i requires 0 <= i < |xs| => f(xs[i]))
  }

  function EncodeConnect(c: Connect): Fields {
    map["httpServers" := Arr(MapSeq(EncodeHttpServer, c.httpServers)),
        "httpSseServers" := Arr(MapSeq(EncodeHttpSseServer, c.httpSseServers)),
        "httpClients" := Arr(MapSeq(EncodeHttpClient, c.httpClients)),
        "websocketServers" := Arr(MapSeq(EncodeWsServer, c.wsServers)),
        "websocketClients" := Arr(MapSeq(EncodeWsClient, c.wsClients)),
        "plugins" := Arr(c.plugins)]
  }

  function EncodeAdvanced(a: Advanced): Fields {
    map["autoStart" := Bool(a.autoStart), "offlineNotice" := Bool(a.offlineNotice),
        "parseMultMsg" := Bool(a.parseMultMsg), "packetServer" := Str(a.packetServer),
        "packetBackend" := Str(a.packetBackend), "enableLocalFile2Url" := Bool(a.localFileToUrl),
        "fileLog" := Bool(a.fileLog), "consoleLog" := Bool(a.consoleLog),
        "fileLogLevel" := EncodeLevel(a.fileLogLevel), "consoleLogLevel" := EncodeLevel(a.consoleLogLevel),
        "o3HookMode" := EncodeHook(a.hookMode), "bypass" := EncodeBypass(a.bypass)]
  }

  function EncodeStatusCommand(s: StatusCommand): Json {
    Obj(map["enabled" := Bool(s.enabled), "swallow" := Bool(s.swallow), "cooldownSeconds" := Int(s.cooldown)])
  }

  function EncodeBot(c: BotConfig): Json {
    var m := map["bot" := Obj(EncodeBasic(c.bot)), "connect" := Obj(EncodeConnect(c.connect)),
                 "advanced" := Obj(EncodeAdvanced(c.advanced))];
    Obj(With(m, "statusCommand",
             if c.statusCommand.None? then None else Some(EncodeStatusCommand(c.statusCommand.value))))
  }

  const COMPAT_VERSION: string := "v2.1"

  /** `build_root_payload`. */
  function BuildRootPayload(bots: seq<BotConfig>): Json {
    RootPayload(MapSeq(EncodeBot, bots))
  }

  function RootPayload(bots: seq<Json>): Json {
    Obj(map["info" := Obj(map["configVersion" := Str(COMPAT_VERSION)]), "bots" := Arr(bots)])
  }

  // ---------------------------------------------------------------- decoding

  // A reader gives nothing when serde would report an error.  Fields with a default take it when
  // missing; a present value must still be well-formed.

  function ReqString(m: Fields, k: string): Option<string> {
    if k in m && m[k].Str? then Some(m[k].s) else None
  }

  function DefString(m: Fields, k: string, missing: string): Option<string> {
    if k !in m then Some(missing) else ReqString(m, k)
  }

  function DefBool(m: Fields, k: string, missing: bool): Option<bool> {
    if k !in m then Some(missing) else if m[k].Bool? then Some(m[k].b) else None
  }

  function ReqU16(m: Fields, k: string): Option<U16> {
    if k in m && m[k].Int? && 0 <= m[k].i < 0x1_0000 then Some(m[k].i) else None
  }

  function ReqU64(m: Fields, k: string): Option<U64> {
    if k in m && m[k].Int? && 0 <= m[k].i < 0x1_0000_0000_0000_0000 then Some(m[k].i) else None
  }

  function ReqU32(m: Fields, k: string): Option<U32> {
    if k in m && m[k].Int? && 0 <= m[k].i < 0x1_0000_0000 then Some(m[k].i) else None
  }

  function DefU32(m: Fields, k: string, missing: U32): Option<U32> {
    if k !in m then Some(missing) else ReqU32(m, k)
  }

  /** An optional field: missing and null both mean none. */
  function MaybeU32(m: Fields, k: string): Option<Option<U32>> {
    if k !in m || m[k].Null? then Some(None)
    else match ReqU32(m, k) case None => None case Some(x) => Some(Some(x))
  }

  function DefFormat(m: Fields, k: string): Option<MessageFormat> {
    if k !in m || m[k] == Str("array") then Some(ArrayFormat)
    else if m[k] == Str("string") then Some(StringFormat) else None
  }

  function DefUnit(m: Fields, k: string): Option<TimeUnit> {
    if k !in m || m[k] == Str("h") then Some(Hour)
    else if m[k] == Str("m") then Some(Minute) else if m[k] == Str("d") then Some(Day)
    else if m[k] == Str("mon") then Some(Month) else if m[k] == Str("year") then Some(Year) else None
  }

  function DefLevel(m: Fields, k: string, missing: LogLevel): Option<LogLevel> {
    if k !in m then Some(missing)
    else if m[k] == Str("debug") then Some(Debug) else if m[k] == Str("info") then Some(Info)
    else if m[k] == Str("error") then Some(Error) else None
  }

  function DefRole(m: Fields, k: string): Option<WsRole> {
    if k !in m || m[k] == Str("Universal") then Some(Universal)
    else if m[k] == Str("Api") then Some(Api) else if m[k] == Str("Event") then Some(Event) else None
  }

  function DefBackend(m: Fields, k: string): Option<Backend> {
    if k !in m || m[k] == Str("napcat") then Some(NapCat)
    else if m[k] == Str("snowluma") then Some(SnowLuma) else None
  }

  function DefDeployment(m: Fields, k: string): Option<DeploymentType> {
    if k !in m || m[k] == Str("native") then Some(Native)
    else if m[k] == Str("docker") then Some(Docker) else None
  }

  function DefHook(m: Fields, k: string): Option<HookMode> {
    if k !in m || m[k] == Int(1) then Some(HookOn) else if m[k] == Int(0) then Some(HookOff) else None
  }

  function LowerAscii(c: char): char {
    if 'A' <= c <= 'Z' then (c as int + 32) as char else c
  }

  /** `eq_ignore_ascii_case("local")`. */
  predicate SpellsLocal(s: string) {
    |s| == 5 && LowerAscii(s[0]) == 'l' && LowerAscii(s[1]) == 'o' && LowerAscii(s[2]) == 'c'
    && LowerAscii(s[3]) == 'a' && LowerAscii(s[4]) == 'l'
  }

  function TargetFrom(s: string): RuntimeTarget {
    if SpellsLocal(s) then Local else Server(s)
  }

  function DefTarget(m: Fields, k: string): Option<RuntimeTarget> {
    if k !in m then Some(Local) else if m[k].Str? then Some(TargetFrom(m[k].s)) else None
  }

  function DecodeSchedule(v: Json): Option<RestartSchedule> {
    if !v.Obj? then None else
    var m := v.fields;
    var enable, unit, duration := DefBool(m, "enable", false), DefUnit(m, "time_unit"), DefU32(m, "duration", 6);
    if enable.Some? && unit.Some? && duration.Some?
    then Some(RestartSchedule(enable.value, unit.value, duration.value)) else None
  }

  function DefSchedule(m: Fields, k: string): Option<RestartSchedule> {
    if k !in m then Some(RestartSchedule(false, Hour, 6)) else DecodeSchedule(m[k])
  }

  function DecodeBypass(v: Json): Option<Bypass> {
    if !v.Obj? then None else
    var m := v.fields;
    var hook, window, mod := DefBool(m, "hook", false), DefBool(m, "window", false), DefBool(m, "module", false);
    var process, container, js := DefBool(m, "process", false), DefBool(m, "container", false), DefBool(m, "js", false);
    if hook.Some? && window.Some? && mod.Some? && process.Some? && container.Some? && js.Some?
    then Some(Bypass(hook.value, window.value, mod.value, process.value, container.value, js.value)) else None
  }

  function DefBypass(m: Fields, k: string): Option<Bypass> {
    if k !in m then Some(Bypass(false, false, false, false, false, false)) else DecodeBypass(m[k])
  }

  function MaybeStartMode(m: Fields, k: string): Option<Option<StartMode>> {
    if k !in m || m[k].Null? then Some(None)
    else if Get(m[k], "mode") == Some(Str("cold_start")) then Some(Some(ColdStart))
    else if Get(m[k], "mode") == Some(Str("hot_start")) then Some(Some(HotStart))
    else None
  }

  function DecodeBasic(v: Json): Option<BotBasic> {
    if !v.Obj? then None else
    var m := v.fields;
    var name, qqId, music := ReqString(m, "name"), ReqU64(m, "QQID"), DefString(m, "musicSignUrl", "");
    var schedule, offline := DefSchedule(m, "autoRestartSchedule"), DefBool(m, "offlineAutoRestart", false);
    var target, backend := DefTarget(m, "runtime_target"), DefBackend(m, "backend_type");
    var deployment, mode := DefDeployment(m, "deploymentType"), MaybeStartMode(m, "snowlumaStartMode");
    if name.Some? && qqId.Some? && music.Some? && schedule.Some? && offline.Some? && target.Some? && backend.Some?
       && deployment.Some? && mode.Some?
    then Some(BotBasic(name.value, qqId.value, music.value, schedule.value, offline.value, target.value,
                       backend.value, deployment.value, mode.value))
    else None
  }

  function DecodeBase(m: Fields): Option<BaseFields> {
    var enable, name, format := DefBool(m, "enable", true), ReqString(m, "name"), DefFormat(m, "messagePostFormat");
    var token, debug := DefString(m, "token", ""), DefBool(m, "debug", false);
    if enable.Some? && name.Some? && format.Some? && token.Some? && debug.Some?
    then Some(BaseFields(enable.value, name.value, format.value, token.value, debug.value)) else None
  }

  function DecodeHttpServer(v: Json): Option<HttpServer> {
    if !v.Obj? then None else
    var m := v.fields;
    var base, host, port := DecodeBase(m), ReqString(m, "host"), ReqU16(m, "port");
    var cors, socket, path :=
      DefBool(m, "enableCors", false), DefBool(m, "enableWebsocket", false), DefString(m, "path", "/");
    if base.Some? && host.Some? && port.Some? && cors.Some? && socket.Some? && path.Some?
    then Some(HttpServer(base.value, host.value, port.value, cors.value, socket.value, path.value)) else None
  }

  function DecodeHttpSseServer(v: Json): Option<HttpSseServer> {
    if !v.Obj? then None else
    var m := v.fields;
    var base, host, port := DecodeBase(m), ReqString(m, "host"), ReqU16(m, "port");
    var cors, socket, report :=
      DefBool(m, "enableCors", false), DefBool(m, "enableWebsocket", false), DefBool(m, "reportSelfMessage", false);
    if base.Some? && host.Some? && port.Some? && cors.Some? && socket.Some? && report.Some?
    then Some(HttpSseServer(base.value, host.value, port.value, cors.value, socket.value, report.value)) else None
  }

  function DecodeHttpClient(v: Json): Option<HttpClient> {
    if !v.Obj? then None else
    var m := v.fields;
    var base, url := DecodeBase(m), ReqString(m, "url");
    var report, timeout := DefBool(m, "reportSelfMessage", false), MaybeU32(m, "timeoutMs");
    if base.Some? && url.Some? && report.Some? && timeout.Some?
    then Some(HttpClient(base.value, url.value, report.value, timeout.value)) else None
  }

  function DecodeWsServer(v: Json): Option<WsServer> {
    if !v.Obj? then None else
    var m := v.fields;
    var base, host, port := DecodeBase(m), ReqString(m, "host"), ReqU16(m, "port");
    var report, push := DefBool(m, "reportSelfMessage", false), DefBool(m, "enableForcePushEvent", false);
    var heart, path, role := DefU32(m, "heartInterval", 30000), DefString(m, "path", "/"), DefRole(m, "role");
    if base.Some? && host.Some? && port.Some? && report.Some? && push.Some? && heart.Some? && path.Some? && role.Some?
    then Some(WsServer(base.value, host.value, port.value, report.value, push.value, heart.value, path.value,
                       role.value))
    else None
  }

  function DecodeWsClient(v: Json): Option<WsClient> {
    if !v.Obj? then None else
    var m := v.fields;
    var base, url, report := DecodeBase(m), ReqString(m, "url"), DefBool(m, "reportSelfMessage", false);
    var heart, reconnect, role :=
      DefU32(m, "heartInterval", 30000), DefU32(m, "reconnectInterval", 30000), DefRole(m, "role");
    if base.Some? && url.Some? && report.Some? && heart.Some? && reconnect.Some? && role.Some?
    then Some(WsClient(base.value, url.value, report.value, heart.value, reconnect.value, role.value)) else None
  }

  function DecodeSeq<T>(read: Json -> Option<T>, xs: seq<Json>): Option<seq<T>> {
    if xs == [] then Some([])
    else
      var x, rest := read(xs[0]), DecodeSeq(read, xs[1..]);
      if x.Some? && rest.Some? then Some([x.value] + rest.value) else None
  }

  function DefList<T>(m: Fields, k: string, read: Json -> Option<T>): Option<seq<T>> {
    if k !in m then Some([]) else if m[k].Arr? then DecodeSeq(read, m[k].items) else None
  }

  /** `plugins` passes any values through. */
  function DefPlugins(m: Fields, k: string): Option<seq<Json>> {
    if k !in m then Some([]) else if m[k].Arr? then Some(m[k].items) else None
  }

  function DecodeConnect(v: Json): Option<Connect> {
    if !v.Obj? then None else
    var m := v.fields;
    var servers, sse := DefList(m, "httpServers", DecodeHttpServer), DefList(m, "httpSseServers", DecodeHttpSseServer);
    var clients, wsServers := DefList(m, "httpClients", DecodeHttpClient), DefList(m, "websocketServers", DecodeWsServer);
    var wsClients, plugins := DefList(m, "websocketClients", DecodeWsClient), DefPlugins(m, "plugins");
    if servers.Some? && sse.Some? && clients.Some? && wsServers.Some? && wsClients.Some? && plugins.Some?
    then Some(Connect(servers.value, sse.value, clients.value, wsServers.value, wsClients.value, plugins.value))
    else None
  }

  function DecodeAdvanced(v: Json): Option<Advanced> {
    if !v.Obj? then None else
    var m := v.fields;
    var auto, notice, parse :=
      DefBool(m, "autoStart", false), DefBool(m, "offlineNotice", false), DefBool(m, "parseMultMsg", false);
    var server, backend := DefString(m, "packetServer", ""), DefString(m, "packetBackend", "auto");
    var toUrl, fileLog, consoleLog :=
      DefBool(m, "enableLocalFile2Url", false), DefBool(m, "fileLog", false), DefBool(m, "consoleLog", true);
    var fileLevel, consoleLevel := DefLevel(m, "fileLogLevel", Debug), DefLevel(m, "consoleLogLevel", Info);
    var hook, bypass := DefHook(m, "o3HookMode"), DefBypass(m, "bypass");
    if auto.Some? && notice.Some? && parse.Some? && server.Some? && backend.Some? && toUrl.Some? && fileLog.Some?
       && consoleLog.Some? && fileLevel.Some? && consoleLevel.Some? && hook.Some? && bypass.Some?
    then Some(Advanced(auto.value, notice.value, parse.value, server.value, backend.value, toUrl.value, fileLog.value,
                       consoleLog.value, fileLevel.value, consoleLevel.value, hook.value, bypass.value))
    else None
  }

  function DecodeStatusCommand(v: Json): Option<StatusCommand> {
    if !v.Obj? then None else
    var m := v.fields;
    var enabled, swallow, cooldown :=
      DefBool(m, "enabled", true), DefBool(m, "swallow", false), DefU32(m, "cooldownSeconds", 5);
    if enabled.Some? && swallow.Some? && cooldown.Some?
    then Some(StatusCommand(enabled.value, swallow.value, cooldown.value)) else None
  }

  function MaybeStatusCommand(m: Fields, k: string): Option<Option<StatusCommand>> {
    if k !in m || m[k].Null? then Some(None)
    else match DecodeStatusCommand(m[k]) case None => None case Some(s) => Some(Some(s))
  }

  function DecodeBot(v: Json): Option<BotConfig> {
    if !v.Obj? then None else
    var m := v.fields;
    if "bot" !in m || "connect" !in m || "advanced" !in m then None else
    var bot, connect, advanced := DecodeBasic(m["bot"]), DecodeConnect(m["connect"]), DecodeAdvanced(m["advanced"]);
    var status := MaybeStatusCommand(m, "statusCommand");
    if bot.Some? && connect.Some? && advanced.Some? && status.Some?
    then Some(BotConfig(bot.value, connect.value, advanced.value, status.value)) else None
  }

  // ---------------------------------------------------------------- the round trip

  /** A target that survives being written as a string. */
  predicate CanonicalTarget(t: RuntimeTarget) {
    t.Server? ==> !SpellsLocal(t.id)
  }

  function Canonical(t: RuntimeTarget): RuntimeTarget {
    if CanonicalTarget(t) then t else Local
  }

  lemma BasicFieldsLeft(b: BotBasic)
    ensures var m := EncodeBasic(b);
      ReqString(m, "name") == Some(b.name) && ReqU64(m, "QQID") == Some(b.qqId)
      && DefString(m, "musicSignUrl", "") == Some(b.musicSignUrl)
      && DefBool(m, "offlineAutoRestart", false) == Some(b.offlineAutoRestart)
  {
  }

  lemma BasicFieldsRight(b: BotBasic)
    ensures var m := EncodeBasic(b);
      DefTarget(m, "runtime_target") == Some(Canonical(b.target))
      && DefBackend(m, "backend_type") == Some(b.backend)
      && DefDeployment(m, "deploymentType") == Some(b.deployment)
  {
  }

  lemma BasicFieldsNested(b: BotBasic)
    ensures var m := EncodeBasic(b);
      DefSchedule(m, "autoRestartSchedule") == Some(b.schedule)
      && MaybeStartMode(m, "snowlumaStartMode") == Some(b.startMode)
  {
    assert DecodeSchedule(EncodeSchedule(b.schedule)) == Some(b.schedule);
  }

  lemma DecodeBasicOf(m: Fields, b: BotBasic)
    requires ReqString(m, "name") == Some(b.name) && ReqU64(m, "QQID") == Some(b.qqId)
    requires DefString(m, "musicSignUrl", "") == Some(b.musicSignUrl)
    requires DefBool(m, "offlineAutoRestart", false) == Some(b.offlineAutoRestart)
    requires DefTarget(m, "runtime_target") == Some(b.target)
    requires DefBackend(m, "backend_type") == Some(b.backend)
    requires DefDeployment(m, "deploymentType") == Some(b.deployment)
    requires DefSchedule(m, "autoRestartSchedule") == Some(b.schedule)
    requires MaybeStartMode(m, "snowlumaStartMode") == Some(b.startMode)
    ensures DecodeBasic(Obj(m)) == Some(b)
  {
  }

  lemma DecodeEncodeBasic(b: BotBasic)
    ensures DecodeBasic(Obj(EncodeBasic(b))) == Some(b.(target := Canonical(b.target)))
  {
    BasicFieldsLeft(b);
    BasicFieldsRight(b);
    BasicFieldsNested(b);
    DecodeBasicOf(EncodeBasic(b), b.(target := Canonical(b.target)));
  }

  lemma DecodeEncodeHttpServer(s: HttpServer)
    ensures DecodeHttpServer(EncodeHttpServer(s)) == Some(s)
  {
  }

  lemma DecodeEncodeHttpSseServer(s: HttpSseServer)
    ensures DecodeHttpSseServer(EncodeHttpSseServer(s)) == Some(s)
  {
  }

  lemma DecodeEncodeHttpClient(c: HttpClient)
    ensures DecodeHttpClient(EncodeHttpClient(c)) == Some(c)
  {
  }

  lemma WsServerBase(s: WsServer)
    ensures DecodeBase(EncodeWsServer(s).fields) == Some(s.base)
  {
  }

  lemma DecodeEncodeWsServer(s: WsServer)
    ensures DecodeWsServer(EncodeWsServer(s)) == Some(s)
  {
    hide DecodeBase;
    WsServerBase(s);
  }

  lemma DecodeEncodeWsClient(c: WsClient)
    ensures DecodeWsClient(EncodeWsClient(c)) == Some(c)
  {
  }

  lemma AdvancedFieldsLeft(a: Advanced)
    ensures var m := EncodeAdvanced(a);
      DefBool(m, "autoStart", false) == Some(a.autoStart) && DefBool(m, "offlineNotice", false) == Some(a.offlineNotice)
      && DefBool(m, "parseMultMsg", false) == Some(a.parseMultMsg)
      && DefString(m, "packetServer", "") == Some(a.packetServer)
  {
  }

  lemma AdvancedFieldsMiddle(a: Advanced)
    ensures var m := EncodeAdvanced(a);
      DefString(m, "packetBackend", "auto") == Some(a.packetBackend)
      && DefBool(m, "enableLocalFile2Url", false) == Some(a.localFileToUrl)
      && DefBool(m, "fileLog", false) == Some(a.fileLog) && DefBool(m, "consoleLog", true) == Some(a.consoleLog)
  {
  }

  lemma AdvancedFieldsRight(a: Advanced)
    ensures var m := EncodeAdvanced(a);
      DefLevel(m, "fileLogLevel", Debug) == Some(a.fileLogLevel)
      && DefLevel(m, "consoleLogLevel", Info) == Some(a.consoleLogLevel)
      && DefHook(m, "o3HookMode") == Some(a.hookMode)
  {
  }

  lemma AdvancedFieldsNested(a: Advanced)
    ensures DefBypass(EncodeAdvanced(a), "bypass") == Some(a.bypass)
  {
    assert DecodeBypass(EncodeBypass(a.bypass)) == Some(a.bypass);
  }

  lemma DecodeAdvancedOf(m: Fields, a: Advanced)
    requires DefBool(m, "autoStart", false) == Some(a.autoStart)
    requires DefBool(m, "offlineNotice", false) == Some(a.offlineNotice)
    requires DefBool(m, "parseMultMsg", false) == Some(a.parseMultMsg)
    requires DefString(m, "packetServer", "") == Some(a.packetServer)
    requires DefString(m, "packetBackend", "auto") == Some(a.packetBackend)
    requires DefBool(m, "enableLocalFile2Url", false) == Some(a.localFileToUrl)
    requires DefBool(m, "fileLog", false) == Some(a.fileLog)
    requires DefBool(m, "consoleLog", true) == Some(a.consoleLog)
    requires DefLevel(m, "fileLogLevel", Debug) == Some(a.fileLogLevel)
    requires DefLevel(m, "consoleLogLevel", Info) == Some(a.consoleLogLevel)
    requires DefHook(m, "o3HookMode") == Some(a.hookMode)
    requires DefBypass(m, "bypass") == Some(a.bypass)
    ensures DecodeAdvanced(Obj(m)) == Some(a)
  {
  }

  lemma DecodeEncodeAdvanced(a: Advanced)
    ensures DecodeAdvanced(Obj(EncodeAdvanced(a))) == Some(a)
  {
    AdvancedFieldsLeft(a);
    AdvancedFieldsMiddle(a);
    AdvancedFieldsRight(a);
    AdvancedFieldsNested(a);
    DecodeAdvancedOf(EncodeAdvanced(a), a);
  }

  lemma {:induction false} DecodeSeqOf<T>(read: Json -> Option<T>, xs: seq<Json>, ts: seq<T>)
    requires |xs| == |ts| && forall i | 0 <= i < |xs| :: read(xs[i]) == Some(ts[i])
    ensures DecodeSeq(read, xs) == Some(ts)
  {
    if xs != [] {
      DecodeSeqOf(read, xs[1..], ts[1..]);
      assert ts == [ts[0]] + ts[1..];
    }
  }

  /** Decoding an encoded list, given that every element decodes back. */
  lemma DecodeListOf<T>(m: Fields, k: string, write: T -> Json, read: Json -> Option<T>, ts: seq<T>)
    requires k in m && m[k] == Arr(MapSeq(write, ts))
    requires forall i | 0 <= i < |ts| :: read(write(ts[i])) == Some(ts[i])
    ensures DefList(m, k, read) == Some(ts)
  {
    DecodeSeqOf(read, MapSeq(write, ts), ts);
  }

  lemma ConnectServers(m: Fields, c: Connect)
    requires "httpServers" in m && m["httpServers"] == Arr(MapSeq(EncodeHttpServer, c.httpServers))
    requires "httpSseServers" in m && m["httpSseServers"] == Arr(MapSeq(EncodeHttpSseServer, c.httpSseServers))
    requires "websocketServers" in m && m["websocketServers"] == Arr(MapSeq(EncodeWsServer, c.wsServers))
    ensures DefList(m, "httpServers", DecodeHttpServer) == Some(c.httpServers)
    ensures DefList(m, "httpSseServers", DecodeHttpSseServer) == Some(c.httpSseServers)
    ensures DefList(m, "websocketServers", DecodeWsServer) == Some(c.wsServers)
  {
    forall i | 0 <= i < |c.httpServers| ensures DecodeHttpServer(EncodeHttpServer(c.httpServers[i])) == Some(c.httpServers[i]) {
      DecodeEncodeHttpServer(c.httpServers[i]);
    }
    DecodeListOf(m, "httpServers", EncodeHttpServer, DecodeHttpServer, c.httpServers);
    forall i | 0 <= i < |c.httpSseServers| ensures DecodeHttpSseServer(EncodeHttpSseServer(c.httpSseServers[i])) == Some(c.httpSseServers[i]) {
      DecodeEncodeHttpSseServer(c.httpSseServers[i]);
    }
    DecodeListOf(m, "httpSseServers", EncodeHttpSseServer, DecodeHttpSseServer, c.httpSseServers);
    forall i | 0 <= i < |c.wsServers| ensures DecodeWsServer(EncodeWsServer(c.wsServers[i])) == Some(c.wsServers[i]) {
      DecodeEncodeWsServer(c.wsServers[i]);
    }
    DecodeListOf(m, "websocketServers", EncodeWsServer, DecodeWsServer, c.wsServers);
  }

  lemma ConnectClients(m: Fields, c: Connect)
    requires "httpClients" in m && m["httpClients"] == Arr(MapSeq(EncodeHttpClient, c.httpClients))
    requires "websocketClients" in m && m["websocketClients"] == Arr(MapSeq(EncodeWsClient, c.wsClients))
    ensures DefList(m, "httpClients", DecodeHttpClient) == Some(c.httpClients)
    ensures DefList(m, "websocketClients", DecodeWsClient) == Some(c.wsClients)
  {
    forall i | 0 <= i < |c.httpClients| ensures DecodeHttpClient(EncodeHttpClient(c.httpClients[i])) == Some(c.httpClients[i]) {
      DecodeEncodeHttpClient(c.httpClients[i]);
    }
    DecodeListOf(m, "httpClients", EncodeHttpClient, DecodeHttpClient, c.httpClients);
    forall i | 0 <= i < |c.wsClients| ensures DecodeWsClient(EncodeWsClient(c.wsClients[i])) == Some(c.wsClients[i]) {
      DecodeEncodeWsClient(c.wsClients[i]);
    }
    DecodeListOf(m, "websocketClients", EncodeWsClient, DecodeWsClient, c.wsClients);
  }

  lemma DecodeConnectOf(m: Fields, c: Connect)
    requires DefList(m, "httpServers", DecodeHttpServer) == Some(c.httpServers)
    requires DefList(m, "httpSseServers", DecodeHttpSseServer) == Some(c.httpSseServers)
    requires DefList(m, "httpClients", DecodeHttpClient) == Some(c.httpClients)
    requires DefList(m, "websocketServers", DecodeWsServer) == Some(c.wsServers)
    requires DefList(m, "websocketClients", DecodeWsClient) == Some(c.wsClients)
    requires DefPlugins(m, "plugins") == Some(c.plugins)
    ensures DecodeConnect(Obj(m)) == Some(c)
  {
  }

  lemma DecodeEncodeConnect(c: Connect)
    ensures DecodeConnect(Obj(EncodeConnect(c))) == Some(c)
  {
    ConnectServers(EncodeConnect(c), c);
    ConnectClients(EncodeConnect(c), c);
    DecodeConnectOf(EncodeConnect(c), c);
  }

  /** The entry around its three sections. */
  lemma DecodeBotOf(m: Fields, c: BotConfig)
    requires "bot" in m && "connect" in m && "advanced" in m
    requires DecodeBasic(m["bot"]) == Some(c.bot) && DecodeConnect(m["connect"]) == Some(c.connect)
    requires DecodeAdvanced(m["advanced"]) == Some(c.advanced)
    requires MaybeStatusCommand(m, "statusCommand") == Some(c.statusCommand)
    ensures DecodeBot(Obj(m)) == Some(c)
  {
  }

  lemma BotSections(c: BotConfig)
    ensures var m := EncodeBot(c).fields;
      "bot" in m && "connect" in m && "advanced" in m && m["bot"] == Obj(EncodeBasic(c.bot))
      && m["connect"] == Obj(EncodeConnect(c.connect)) && m["advanced"] == Obj(EncodeAdvanced(c.advanced))
      && MaybeStatusCommand(m, "statusCommand") == Some(c.statusCommand)
  {
    if c.statusCommand.Some? {
      var s := c.statusCommand.value;
      assert DecodeStatusCommand(EncodeStatusCommand(s)) == Some(s);
    }
  }

  /** Decoding what was encoded gives the configuration back, up to the spelling of "local". */
  lemma DecodeEncodeBot(c: BotConfig)
    ensures DecodeBot(EncodeBot(c)) == Some(c.(bot := c.bot.(target := Canonical(c.bot.target))))
  {
    BotSections(c);
    DecodeEncodeBasic(c.bot);
    DecodeEncodeConnect(c.connect);
    DecodeEncodeAdvanced(c.advanced);
    DecodeBotOf(EncodeBot(c).fields, c.(bot := c.bot.(target := Canonical(c.bot.target))));
  }

  /** The strings that are read as the local target: "local" in any mixture of cases. */
  lemma SpellsLocalIff(s: string)
    ensures SpellsLocal(s) <==>
      |s| == 5 && s[0] in "lL" && s[1] in "oO" && s[2] in "cC" && s[3] in "aA" && s[4] in "lL"
  {
    LowerIs('l', 'L');
    LowerIs('o', 'O');
    LowerIs('c', 'C');
    LowerIs('a', 'A');
  }

  lemma LowerIs(low: char, up: char)
    requires 'a' <= low <= 'z' && up as int + 32 == low as int
    ensures forall c :: LowerAscii(c) == low <==> c == low || c == up
  {
  }
}
