/**
 Reading an entry from which fields are missing: what may be missing, and what it then stands for.
 Each lemma takes what was written for a value, leaves out any set of fields, and says what is read.
 */
module BotCodecDefaults {
  import opened Common
  import opened JsonModel
  import opened BotConfigModel
  import opened BotCodec

  /** A value, or the default if its field is left out. */
  function Or<T>(gone: set<string>, k: string, default: T, v: T): T {
    if k in gone then default else v
  }

  function FieldsOf(v: Json): Fields {
    if v.Obj? then v.fields else map[]
  }

  /** A field as it was written, unless it is left out. */
  predicate Shows(m: Fields, gone: set<string>, k: string, v: Json) {
    Lookup(m, k) == if k in gone then None else Some(v)
  }

  lemma Kept(m: Fields, gone: set<string>, k: string, v: Json)
    requires k in m && m[k] == v
    ensures Shows(m - gone, gone, k, v)
  {
  }

  // ---------------------------------------------------------------- single fields

  lemma ReadsBool(m: Fields, gone: set<string>, k: string, default: bool, b: bool)
    requires Shows(m, gone, k, Bool(b))
    ensures DefBool(m, k, default) == Some(Or(gone, k, default, b))
  {
  }

  lemma ReadsString(m: Fields, gone: set<string>, k: string, default: string, s: string)
    requires Shows(m, gone, k, Str(s))
    ensures DefString(m, k, default) == Some(Or(gone, k, default, s))
    ensures ReqString(m, k) == if k in gone then None else Some(s)
  {
  }

  lemma ReadsU32(m: Fields, gone: set<string>, k: string, default: U32, n: U32)
    requires Shows(m, gone, k, Int(n))
    ensures DefU32(m, k, default) == Some(Or(gone, k, default, n))
  {
  }

  lemma ReadsPort(m: Fields, gone: set<string>, k: string, n: U16)
    requires Shows(m, gone, k, Int(n))
    ensures ReqU16(m, k) == if k in gone then None else Some(n)
  {
  }

  lemma ReadsRole(m: Fields, gone: set<string>, k: string, r: WsRole)
    requires Shows(m, gone, k, EncodeRole(r))
    ensures DefRole(m, k) == Some(Or(gone, k, Universal, r))
  {
  }

  lemma ReadsLevel(m: Fields, gone: set<string>, k: string, default: LogLevel, l: LogLevel)
    requires Shows(m, gone, k, EncodeLevel(l))
    ensures DefLevel(m, k, default) == Some(Or(gone, k, default, l))
  {
  }

  // ---------------------------------------------------------------- the base of an entry

  function BaseWithout(b: BaseFields, gone: set<string>): BaseFields {
    BaseFields(Or(gone, "enable", true, b.enable), b.name, Or(gone, "messagePostFormat", ArrayFormat, b.format),
               Or(gone, "token", "", b.token), Or(gone, "debug", false, b.debug))
  }

  predicate ShowsBase(m: Fields, b: BaseFields, gone: set<string>) {
    && Shows(m, gone, "name", Str(b.name)) && Shows(m, gone, "enable", Bool(b.enable))
    && Shows(m, gone, "messagePostFormat", Str(if b.format.ArrayFormat? then "array" else "string"))
    && Shows(m, gone, "token", Str(b.token)) && Shows(m, gone, "debug", Bool(b.debug))
  }

  lemma BaseReads(m: Fields, b: BaseFields, gone: set<string>)
    requires ShowsBase(m, b, gone)
    ensures DecodeBase(m) == if "name" in gone then None else Some(BaseWithout(b, gone))
  {
    assert "array" != "string" by { assert |"array"| != |"string"|; }
  }

  // ---------------------------------------------------------------- entries

  lemma HttpServerShows(s: HttpServer, gone: set<string>)
    ensures var m := FieldsOf(EncodeHttpServer(s)) - gone;
      && EncodeHttpServer(s).Obj? && ShowsBase(m, s.base, gone)
      && Shows(m, gone, "host", Str(s.host))
      && Shows(m, gone, "port", Int(s.port))
      && Shows(m, gone, "enableCors", Bool(s.enableCors))
      && Shows(m, gone, "enableWebsocket", Bool(s.enableWebsocket))
      && Shows(m, gone, "path", Str(s.path))
  {
    hide Shows, EncodeHttpServer, EncodeRole;
    HttpServerFields(s);
    var e := FieldsOf(EncodeHttpServer(s));
    Kept(e, gone, "name", Str(s.base.name));
    Kept(e, gone, "enable", Bool(s.base.enable));
    Kept(e, gone, "messagePostFormat", Str(if s.base.format.ArrayFormat? then "array" else "string"));
    Kept(e, gone, "token", Str(s.base.token));
    Kept(e, gone, "debug", Bool(s.base.debug));
    Kept(e, gone, "host", Str(s.host));
    Kept(e, gone, "port", Int(s.port));
    Kept(e, gone, "enableCors", Bool(s.enableCors));
    Kept(e, gone, "enableWebsocket", Bool(s.enableWebsocket));
    Kept(e, gone, "path", Str(s.path));
  }

  lemma HttpServerFields(s: HttpServer)
    ensures var e := FieldsOf(EncodeHttpServer(s));
      && EncodeHttpServer(s).Obj?
      && "name" in e && e["name"] == Str(s.base.name)
      && "enable" in e && e["enable"] == Bool(s.base.enable)
      && "messagePostFormat" in e && e["messagePostFormat"] == Str(if s.base.format.ArrayFormat? then "array" else "string")
      && "token" in e && e["token"] == Str(s.base.token)
      && "debug" in e && e["debug"] == Bool(s.base.debug)
      && "host" in e && e["host"] == Str(s.host)
      && "port" in e && e["port"] == Int(s.port)
      && "enableCors" in e && e["enableCors"] == Bool(s.enableCors)
      && "enableWebsocket" in e && e["enableWebsocket"] == Bool(s.enableWebsocket)
      && "path" in e && e["path"] == Str(s.path)
  {
    hide EncodeRole;
  }

  /** An HTTP server needs a name, a host and a port. */
  lemma HttpServerReads(s: HttpServer, gone: set<string>)
    ensures DecodeHttpServer(Obj(FieldsOf(EncodeHttpServer(s)) - gone))
      == if "name" in gone || "host" in gone || "port" in gone then None
         else Some(HttpServer(BaseWithout(s.base, gone), s.host, s.port, Or(gone, "enableCors", false,
                              s.enableCors), Or(gone, "enableWebsocket", false, s.enableWebsocket), Or(gone, "path", "/",
                              s.path)))
  {
    hide DecodeBase, BaseWithout, ShowsBase, Shows, EncodeHttpServer, ReqString, ReqU16, DefBool, DefString, DefU32, DefRole, Or;
    var m := FieldsOf(EncodeHttpServer(s)) - gone;
    HttpServerShows(s, gone);
    BaseReads(m, s.base, gone);
    ReadsString(m, gone, "host", "", s.host);
    ReadsPort(m, gone, "port", s.port);
    ReadsBool(m, gone, "enableCors", false, s.enableCors);
    ReadsBool(m, gone, "enableWebsocket", false, s.enableWebsocket);
    ReadsString(m, gone, "path", "/", s.path);
  }

  lemma HttpSseServerShows(s: HttpSseServer, gone: set<string>)
    ensures var m := FieldsOf(EncodeHttpSseServer(s)) - gone;
      && EncodeHttpSseServer(s).Obj? && ShowsBase(m, s.base, gone)
      && Shows(m, gone, "host", Str(s.host))
      && Shows(m, gone, "port", Int(s.port))
      && Shows(m, gone, "enableCors", Bool(s.enableCors))
      && Shows(m, gone, "enableWebsocket", Bool(s.enableWebsocket))
      && Shows(m, gone, "reportSelfMessage", Bool(s.reportSelf))
  {
    hide Shows, EncodeHttpSseServer, EncodeRole;
    HttpSseServerFields(s);
    var e := FieldsOf(EncodeHttpSseServer(s));
    Kept(e, gone, "name", Str(s.base.name));
    Kept(e, gone, "enable", Bool(s.base.enable));
    Kept(e, gone, "messagePostFormat", Str(if s.base.format.ArrayFormat? then "array" else "string"));
    Kept(e, gone, "token", Str(s.base.token));
    Kept(e, gone, "debug", Bool(s.base.debug));
    Kept(e, gone, "host", Str(s.host));
    Kept(e, gone, "port", Int(s.port));
    Kept(e, gone, "enableCors", Bool(s.enableCors));
    Kept(e, gone, "enableWebsocket", Bool(s.enableWebsocket));
    Kept(e, gone, "reportSelfMessage", Bool(s.reportSelf));
  }

  lemma HttpSseServerFields(s: HttpSseServer)
    ensures var e := FieldsOf(EncodeHttpSseServer(s));
      && EncodeHttpSseServer(s).Obj?
      && "name" in e && e["name"] == Str(s.base.name)
      && "enable" in e && e["enable"] == Bool(s.base.enable)
      && "messagePostFormat" in e && e["messagePostFormat"] == Str(if s.base.format.ArrayFormat? then "array" else "string")
      && "token" in e && e["token"] == Str(s.base.token)
      && "debug" in e && e["debug"] == Bool(s.base.debug)
      && "host" in e && e["host"] == Str(s.host)
      && "port" in e && e["port"] == Int(s.port)
      && "enableCors" in e && e["enableCors"] == Bool(s.enableCors)
      && "enableWebsocket" in e && e["enableWebsocket"] == Bool(s.enableWebsocket)
      && "reportSelfMessage" in e && e["reportSelfMessage"] == Bool(s.reportSelf)
  {
    hide EncodeRole;
  }

  /** So does an event stream. */
  lemma HttpSseServerReads(s: HttpSseServer, gone: set<string>)
    ensures DecodeHttpSseServer(Obj(FieldsOf(EncodeHttpSseServer(s)) - gone))
      == if "name" in gone || "host" in gone || "port" in gone then None
         else Some(HttpSseServer(BaseWithout(s.base, gone), s.host, s.port, Or(gone, "enableCors", false,
                                 s.enableCors), Or(gone, "enableWebsocket", false, s.enableWebsocket), Or(gone, "reportSelfMessage",
                                 false, s.reportSelf)))
  {
    hide DecodeBase, BaseWithout, ShowsBase, Shows, EncodeHttpSseServer, ReqString, ReqU16, DefBool, DefString, DefU32, DefRole, Or;
    var m := FieldsOf(EncodeHttpSseServer(s)) - gone;
    HttpSseServerShows(s, gone);
    BaseReads(m, s.base, gone);
    ReadsString(m, gone, "host", "", s.host);
    ReadsPort(m, gone, "port", s.port);
    ReadsBool(m, gone, "enableCors", false, s.enableCors);
    ReadsBool(m, gone, "enableWebsocket", false, s.enableWebsocket);
    ReadsBool(m, gone, "reportSelfMessage", false, s.reportSelf);
  }

  lemma WsServerShows(s: WsServer, gone: set<string>)
    ensures var m := FieldsOf(EncodeWsServer(s)) - gone;
      && EncodeWsServer(s).Obj? && ShowsBase(m, s.base, gone)
      && Shows(m, gone, "host", Str(s.host))
      && Shows(m, gone, "port", Int(s.port))
      && Shows(m, gone, "reportSelfMessage", Bool(s.reportSelf))
      && Shows(m, gone, "enableForcePushEvent", Bool(s.forcePush))
      && Shows(m, gone, "heartInterval", Int(s.heart))
      && Shows(m, gone, "path", Str(s.path))
      && Shows(m, gone, "role", EncodeRole(s.role))
  {
    hide Shows, EncodeWsServer, EncodeRole;
    WsServerFields(s);
    var e := FieldsOf(EncodeWsServer(s));
    Kept(e, gone, "name", Str(s.base.name));
    Kept(e, gone, "enable", Bool(s.base.enable));
    Kept(e, gone, "messagePostFormat", Str(if s.base.format.ArrayFormat? then "array" else "string"));
    Kept(e, gone, "token", Str(s.base.token));
    Kept(e, gone, "debug", Bool(s.base.debug));
    Kept(e, gone, "host", Str(s.host));
    Kept(e, gone, "port", Int(s.port));
    Kept(e, gone, "reportSelfMessage", Bool(s.reportSelf));
    Kept(e, gone, "enableForcePushEvent", Bool(s.forcePush));
    Kept(e, gone, "heartInterval", Int(s.heart));
    Kept(e, gone, "path", Str(s.path));
    Kept(e, gone, "role", EncodeRole(s.role));
  }

  lemma WsServerFields(s: WsServer)
    ensures var e := FieldsOf(EncodeWsServer(s));
      && EncodeWsServer(s).Obj?
      && "name" in e && e["name"] == Str(s.base.name)
      && "enable" in e && e["enable"] == Bool(s.base.enable)
      && "messagePostFormat" in e && e["messagePostFormat"] == Str(if s.base.format.ArrayFormat? then "array" else "string")
      && "token" in e && e["token"] == Str(s.base.token)
      && "debug" in e && e["debug"] == Bool(s.base.debug)
      && "host" in e && e["host"] == Str(s.host)
      && "port" in e && e["port"] == Int(s.port)
      && "reportSelfMessage" in e && e["reportSelfMessage"] == Bool(s.reportSelf)
      && "enableForcePushEvent" in e && e["enableForcePushEvent"] == Bool(s.forcePush)
      && "heartInterval" in e && e["heartInterval"] == Int(s.heart)
      && "path" in e && e["path"] == Str(s.path)
      && "role" in e && e["role"] == EncodeRole(s.role)
  {
    hide EncodeRole;
  }

  /** And a WebSocket server. */
  lemma WsServerReads(s: WsServer, gone: set<string>)
    ensures DecodeWsServer(Obj(FieldsOf(EncodeWsServer(s)) - gone))
      == if "name" in gone || "host" in gone || "port" in gone then None
         else Some(WsServer(BaseWithout(s.base, gone), s.host, s.port, Or(gone, "reportSelfMessage", false,
                            s.reportSelf), Or(gone, "enableForcePushEvent", false, s.forcePush), Or(gone, "heartInterval",
                            30000, s.heart), Or(gone, "path", "/", s.path), Or(gone, "role", Universal, s.role)))
  {
    hide DecodeBase, BaseWithout, ShowsBase, Shows, EncodeWsServer, ReqString, ReqU16, DefBool, DefString, DefU32, DefRole, Or;
    var m := FieldsOf(EncodeWsServer(s)) - gone;
    WsServerShows(s, gone);
    BaseReads(m, s.base, gone);
    ReadsString(m, gone, "host", "", s.host);
    ReadsPort(m, gone, "port", s.port);
    ReadsBool(m, gone, "reportSelfMessage", false, s.reportSelf);
    ReadsBool(m, gone, "enableForcePushEvent", false, s.forcePush);
    ReadsU32(m, gone, "heartInterval", 30000, s.heart);
    ReadsString(m, gone, "path", "/", s.path);
    ReadsRole(m, gone, "role", s.role);
  }

  lemma WsClientShows(c: WsClient, gone: set<string>)
    ensures var m := FieldsOf(EncodeWsClient(c)) - gone;
      && EncodeWsClient(c).Obj? && ShowsBase(m, c.base, gone)
      && Shows(m, gone, "url", Str(c.url))
      && Shows(m, gone, "reportSelfMessage", Bool(c.reportSelf))
      && Shows(m, gone, "heartInterval", Int(c.heart))
      && Shows(m, gone, "reconnectInterval", Int(c.reconnect))
      && Shows(m, gone, "role", EncodeRole(c.role))
  {
    hide Shows, EncodeWsClient, EncodeRole;
    WsClientFields(c);
    var e := FieldsOf(EncodeWsClient(c));
    Kept(e, gone, "name", Str(c.base.name));
    Kept(e, gone, "enable", Bool(c.base.enable));
    Kept(e, gone, "messagePostFormat", Str(if c.base.format.ArrayFormat? then "array" else "string"));
    Kept(e, gone, "token", Str(c.base.token));
    Kept(e, gone, "debug", Bool(c.base.debug));
    Kept(e, gone, "url", Str(c.url));
    Kept(e, gone, "reportSelfMessage", Bool(c.reportSelf));
    Kept(e, gone, "heartInterval", Int(c.heart));
    Kept(e, gone, "reconnectInterval", Int(c.reconnect));
    Kept(e, gone, "role", EncodeRole(c.role));
  }

  lemma WsClientFields(c: WsClient)
    ensures var e := FieldsOf(EncodeWsClient(c));
      && EncodeWsClient(c).Obj?
      && "name" in e && e["name"] == Str(c.base.name)
      && "enable" in e && e["enable"] == Bool(c.base.enable)
      && "messagePostFormat" in e && e["messagePostFormat"] == Str(if c.base.format.ArrayFormat? then "array" else "string")
      && "token" in e && e["token"] == Str(c.base.token)
      && "debug" in e && e["debug"] == Bool(c.base.debug)
      && "url" in e && e["url"] == Str(c.url)
      && "reportSelfMessage" in e && e["reportSelfMessage"] == Bool(c.reportSelf)
      && "heartInterval" in e && e["heartInterval"] == Int(c.heart)
      && "reconnectInterval" in e && e["reconnectInterval"] == Int(c.reconnect)
      && "role" in e && e["role"] == EncodeRole(c.role)
  {
    hide EncodeRole;
  }

  /** A client needs a name and a URL. */
  lemma WsClientReads(c: WsClient, gone: set<string>)
    ensures DecodeWsClient(Obj(FieldsOf(EncodeWsClient(c)) - gone))
      == if "name" in gone || "url" in gone then None
         else Some(WsClient(BaseWithout(c.base, gone), c.url, Or(gone, "reportSelfMessage", false, c.reportSelf),
                            Or(gone, "heartInterval", 30000, c.heart), Or(gone, "reconnectInterval", 30000, c.reconnect),
                            Or(gone, "role", Universal, c.role)))
  {
    hide DecodeBase, BaseWithout, ShowsBase, Shows, EncodeWsClient, ReqString, ReqU16, DefBool, DefString, DefU32, DefRole, Or;
    var m := FieldsOf(EncodeWsClient(c)) - gone;
    WsClientShows(c, gone);
    BaseReads(m, c.base, gone);
    ReadsString(m, gone, "url", "", c.url);
    ReadsBool(m, gone, "reportSelfMessage", false, c.reportSelf);
    ReadsU32(m, gone, "heartInterval", 30000, c.heart);
    ReadsU32(m, gone, "reconnectInterval", 30000, c.reconnect);
    ReadsRole(m, gone, "role", c.role);
  }

  lemma HttpClientReads(c: HttpClient, gone: set<string>)
    ensures DecodeHttpClient(Obj(FieldsOf(EncodeHttpClient(c)) - gone))
      == if "name" in gone || "url" in gone then None
         else Some(HttpClient(BaseWithout(c.base, gone), c.url, Or(gone, "reportSelfMessage", false, c.reportSelf),
                              Or(gone, "timeoutMs", None, c.timeoutMs)))
  {
    hide DecodeBase, BaseWithout, EncodeFormat;
    var m := FieldsOf(EncodeHttpClient(c)) - gone;
    HttpClientShows(c, gone);
    BaseReads(m, c.base, gone);
  }

  lemma HttpClientShows(c: HttpClient, gone: set<string>)
    ensures EncodeHttpClient(c).Obj? && ShowsBase(FieldsOf(EncodeHttpClient(c)) - gone, c.base, gone)
  {
  }

  lemma BypassShows(b: Bypass, gone: set<string>)
    ensures var m := FieldsOf(EncodeBypass(b)) - gone;
      && EncodeBypass(b).Obj?
      && Shows(m, gone, "hook", Bool(b.hook))
      && Shows(m, gone, "window", Bool(b.window))
      && Shows(m, gone, "module", Bool(b.mod))
      && Shows(m, gone, "process", Bool(b.process))
      && Shows(m, gone, "container", Bool(b.container))
      && Shows(m, gone, "js", Bool(b.js))
  {
    hide Shows, EncodeBypass, EncodeRole;
    BypassFields(b);
    var e := FieldsOf(EncodeBypass(b));
    Kept(e, gone, "hook", Bool(b.hook));
    Kept(e, gone, "window", Bool(b.window));
    Kept(e, gone, "module", Bool(b.mod));
    Kept(e, gone, "process", Bool(b.process));
    Kept(e, gone, "container", Bool(b.container));
    Kept(e, gone, "js", Bool(b.js));
  }

  lemma BypassFields(b: Bypass)
    ensures var e := FieldsOf(EncodeBypass(b));
      && EncodeBypass(b).Obj?
      && "hook" in e && e["hook"] == Bool(b.hook)
      && "window" in e && e["window"] == Bool(b.window)
      && "module" in e && e["module"] == Bool(b.mod)
      && "process" in e && e["process"] == Bool(b.process)
      && "container" in e && e["container"] == Bool(b.container)
      && "js" in e && e["js"] == Bool(b.js)
  {
    hide EncodeRole;
  }

  /** Nothing of a bypass need be there. */
  lemma BypassReads(b: Bypass, gone: set<string>)
    ensures DecodeBypass(Obj(FieldsOf(EncodeBypass(b)) - gone))
      == Some(Bypass(Or(gone, "hook", false, b.hook), Or(gone, "window", false, b.window), Or(gone, "module",
                     false, b.mod), Or(gone, "process", false, b.process), Or(gone, "container", false, b.container),
                     Or(gone, "js", false, b.js)))
  {
    hide DecodeBase, BaseWithout, ShowsBase, Shows, EncodeBypass, ReqString, ReqU16, DefBool, DefString, DefU32, DefRole, Or;
    var m := FieldsOf(EncodeBypass(b)) - gone;
    BypassShows(b, gone);
    ReadsBool(m, gone, "hook", false, b.hook);
    ReadsBool(m, gone, "window", false, b.window);
    ReadsBool(m, gone, "module", false, b.mod);
    ReadsBool(m, gone, "process", false, b.process);
    ReadsBool(m, gone, "container", false, b.container);
    ReadsBool(m, gone, "js", false, b.js);
  }

  lemma ScheduleReads(s: RestartSchedule, gone: set<string>)
    ensures DecodeSchedule(Obj(FieldsOf(EncodeSchedule(s)) - gone))
      == Some(RestartSchedule(Or(gone, "enable", false, s.enable), Or(gone, "time_unit", Hour, s.unit),
                              Or(gone, "duration", 6, s.duration)))
  {
  }

  lemma StatusCommandReads(s: StatusCommand, gone: set<string>)
    ensures DecodeStatusCommand(Obj(FieldsOf(EncodeStatusCommand(s)) - gone))
      == Some(StatusCommand(Or(gone, "enabled", true, s.enabled), Or(gone, "swallow", false, s.swallow),
                            Or(gone, "cooldownSeconds", 5, s.cooldown)))
  {
  }

  // ---------------------------------------------------------------- the advanced section

  /** A switch, a level or a text of the section. */
  lemma AdvancedShows(a: Advanced, gone: set<string>)
    ensures var m := EncodeAdvanced(a) - gone;
      && Shows(m, gone, "autoStart", Bool(a.autoStart)) && Shows(m, gone, "offlineNotice", Bool(a.offlineNotice))
      && Shows(m, gone, "parseMultMsg", Bool(a.parseMultMsg)) && Shows(m, gone, "packetServer", Str(a.packetServer))
      && Shows(m, gone, "packetBackend", Str(a.packetBackend))
      && Shows(m, gone, "enableLocalFile2Url", Bool(a.localFileToUrl)) && Shows(m, gone, "fileLog", Bool(a.fileLog))
      && Shows(m, gone, "consoleLog", Bool(a.consoleLog)) && Shows(m, gone, "fileLogLevel", EncodeLevel(a.fileLogLevel))
      && Shows(m, gone, "consoleLogLevel", EncodeLevel(a.consoleLogLevel))
      && Shows(m, gone, "o3HookMode", EncodeHook(a.hookMode)) && Shows(m, gone, "bypass", EncodeBypass(a.bypass))
  {
    hide Shows, EncodeAdvanced, EncodeLevel, EncodeBypass, EncodeHook;
    AdvancedFields(a);
    AdvancedLogFields(a);
    var e := EncodeAdvanced(a);
    Kept(e, gone, "autoStart", Bool(a.autoStart));
    Kept(e, gone, "offlineNotice", Bool(a.offlineNotice));
    Kept(e, gone, "parseMultMsg", Bool(a.parseMultMsg));
    Kept(e, gone, "packetServer", Str(a.packetServer));
    Kept(e, gone, "packetBackend", Str(a.packetBackend));
    Kept(e, gone, "enableLocalFile2Url", Bool(a.localFileToUrl));
    Kept(e, gone, "fileLog", Bool(a.fileLog));
    Kept(e, gone, "consoleLog", Bool(a.consoleLog));
    Kept(e, gone, "fileLogLevel", EncodeLevel(a.fileLogLevel));
    Kept(e, gone, "consoleLogLevel", EncodeLevel(a.consoleLogLevel));
    Kept(e, gone, "o3HookMode", EncodeHook(a.hookMode));
    Kept(e, gone, "bypass", EncodeBypass(a.bypass));
  }

  lemma AdvancedFields(a: Advanced)
    ensures var e := EncodeAdvanced(a);
      && "autoStart" in e && e["autoStart"] == Bool(a.autoStart)
      && "offlineNotice" in e && e["offlineNotice"] == Bool(a.offlineNotice)
      && "parseMultMsg" in e && e["parseMultMsg"] == Bool(a.parseMultMsg)
      && "packetServer" in e && e["packetServer"] == Str(a.packetServer)
      && "packetBackend" in e && e["packetBackend"] == Str(a.packetBackend)
      && "enableLocalFile2Url" in e && e["enableLocalFile2Url"] == Bool(a.localFileToUrl)
  {
    hide EncodeLevel, EncodeBypass, EncodeHook;
  }

  lemma AdvancedLogFields(a: Advanced)
    ensures var e := EncodeAdvanced(a);
      && "fileLog" in e && e["fileLog"] == Bool(a.fileLog)
      && "consoleLog" in e && e["consoleLog"] == Bool(a.consoleLog)
      && "fileLogLevel" in e && e["fileLogLevel"] == EncodeLevel(a.fileLogLevel)
      && "consoleLogLevel" in e && e["consoleLogLevel"] == EncodeLevel(a.consoleLogLevel)
      && "o3HookMode" in e && e["o3HookMode"] == EncodeHook(a.hookMode)
      && "bypass" in e && e["bypass"] == EncodeBypass(a.bypass)
  {
    hide EncodeLevel, EncodeBypass, EncodeHook;
  }

  lemma ReadsHook(m: Fields, gone: set<string>, k: string, h: HookMode)
    requires Shows(m, gone, k, EncodeHook(h))
    ensures DefHook(m, k) == Some(Or(gone, k, HookOn, h))
  {
  }

  lemma ReadsBypass(m: Fields, gone: set<string>, k: string, b: Bypass)
    requires Shows(m, gone, k, EncodeBypass(b))
    ensures DefBypass(m, k) == Some(Or(gone, k, Bypass(false, false, false, false, false, false), b))
  {
    hide EncodeBypass, DecodeBypass;
    BypassReads(b, {});
    assert EncodeBypass(b).Obj? by { BypassShows(b, {}); }
    assert FieldsOf(EncodeBypass(b)) - {} == FieldsOf(EncodeBypass(b));
  }

  /** Nothing of the section need be there. */
  lemma AdvancedReads(a: Advanced, gone: set<string>)
    ensures DecodeAdvanced(Obj(EncodeAdvanced(a) - gone))
      == Some(Advanced(
           Or(gone, "autoStart", false, a.autoStart), Or(gone, "offlineNotice", false, a.offlineNotice),
           Or(gone, "parseMultMsg", false, a.parseMultMsg), Or(gone, "packetServer", "", a.packetServer),
           Or(gone, "packetBackend", "auto", a.packetBackend), Or(gone, "enableLocalFile2Url", false, a.localFileToUrl),
           Or(gone, "fileLog", false, a.fileLog), Or(gone, "consoleLog", true, a.consoleLog),
           Or(gone, "fileLogLevel", Debug, a.fileLogLevel), Or(gone, "consoleLogLevel", Info, a.consoleLogLevel),
           Or(gone, "o3HookMode", HookOn, a.hookMode),
           Or(gone, "bypass", Bypass(false, false, false, false, false, false), a.bypass)))
  {
    hide Shows, EncodeAdvanced, EncodeLevel, EncodeHook, EncodeBypass, DefBool, DefString, DefLevel, DefHook, DefBypass, Or;
    var m := EncodeAdvanced(a) - gone;
    AdvancedShows(a, gone);
    ReadsBool(m, gone, "autoStart", false, a.autoStart);
    ReadsBool(m, gone, "offlineNotice", false, a.offlineNotice);
    ReadsBool(m, gone, "parseMultMsg", false, a.parseMultMsg);
    ReadsString(m, gone, "packetServer", "", a.packetServer);
    ReadsString(m, gone, "packetBackend", "auto", a.packetBackend);
    ReadsBool(m, gone, "enableLocalFile2Url", false, a.localFileToUrl);
    ReadsBool(m, gone, "fileLog", false, a.fileLog);
    ReadsBool(m, gone, "consoleLog", true, a.consoleLog);
    ReadsLevel(m, gone, "fileLogLevel", Debug, a.fileLogLevel);
    ReadsLevel(m, gone, "consoleLogLevel", Info, a.consoleLogLevel);
    ReadsHook(m, gone, "o3HookMode", a.hookMode);
    ReadsBypass(m, gone, "bypass", a.bypass);
  }

  // ---------------------------------------------------------------- the bot section

  /** What is read of a bot section with fields left out. */
  function BasicWithout(b: BotBasic, gone: set<string>): BotBasic {
    BotBasic(b.name, b.qqId, Or(gone, "musicSignUrl", "", b.musicSignUrl),
             Or(gone, "autoRestartSchedule", RestartSchedule(false, Hour, 6), b.schedule),
             Or(gone, "offlineAutoRestart", false, b.offlineAutoRestart),
             Or(gone, "runtime_target", Local, Canonical(b.target)), Or(gone, "backend_type", NapCat, b.backend),
             Or(gone, "deploymentType", Native, b.deployment), Or(gone, "snowlumaStartMode", None, b.startMode))
  }

  lemma BasicShows(b: BotBasic, gone: set<string>)
    ensures var m := EncodeBasic(b) - gone;
      && Shows(m, gone, "name", Str(b.name)) && Shows(m, gone, "QQID", Int(b.qqId))
      && Shows(m, gone, "musicSignUrl", Str(b.musicSignUrl)) && Shows(m, gone, "offlineAutoRestart", Bool(b.offlineAutoRestart))
      && Shows(m, gone, "runtime_target", EncodeTarget(b.target)) && Shows(m, gone, "backend_type", EncodeBackend(b.backend))
      && Shows(m, gone, "deploymentType", EncodeDeployment(b.deployment))
      && Shows(m, gone, "autoRestartSchedule", EncodeSchedule(b.schedule))
  {
    hide Shows, EncodeSchedule, EncodeTarget, EncodeBackend, EncodeDeployment, EncodeBasic;
    var e := EncodeBasic(b);
    BasicFields(b);
    Kept(e, gone, "name", Str(b.name));
    Kept(e, gone, "QQID", Int(b.qqId));
    Kept(e, gone, "musicSignUrl", Str(b.musicSignUrl));
    Kept(e, gone, "offlineAutoRestart", Bool(b.offlineAutoRestart));
    Kept(e, gone, "runtime_target", EncodeTarget(b.target));
    Kept(e, gone, "backend_type", EncodeBackend(b.backend));
    Kept(e, gone, "deploymentType", EncodeDeployment(b.deployment));
    Kept(e, gone, "autoRestartSchedule", EncodeSchedule(b.schedule));
  }

  lemma BasicFields(b: BotBasic)
    ensures var e := EncodeBasic(b);
      && "name" in e && e["name"] == Str(b.name) && "QQID" in e && e["QQID"] == Int(b.qqId)
      && "musicSignUrl" in e && e["musicSignUrl"] == Str(b.musicSignUrl)
      && "offlineAutoRestart" in e && e["offlineAutoRestart"] == Bool(b.offlineAutoRestart)
      && "runtime_target" in e && e["runtime_target"] == EncodeTarget(b.target)
      && "backend_type" in e && e["backend_type"] == EncodeBackend(b.backend)
      && "deploymentType" in e && e["deploymentType"] == EncodeDeployment(b.deployment)
      && "autoRestartSchedule" in e && e["autoRestartSchedule"] == EncodeSchedule(b.schedule)
  {
    hide EncodeSchedule, EncodeTarget, EncodeBackend, EncodeDeployment;
  }

  lemma ReadsKinds(m: Fields, gone: set<string>, b: BotBasic)
    requires Shows(m, gone, "backend_type", EncodeBackend(b.backend))
    requires Shows(m, gone, "deploymentType", EncodeDeployment(b.deployment))
    ensures DefBackend(m, "backend_type") == Some(Or(gone, "backend_type", NapCat, b.backend))
    ensures DefDeployment(m, "deploymentType") == Some(Or(gone, "deploymentType", Native, b.deployment))
  {
  }

  lemma ReadsTarget(m: Fields, gone: set<string>, t: RuntimeTarget)
    requires Shows(m, gone, "runtime_target", EncodeTarget(t))
    ensures DefTarget(m, "runtime_target") == Some(Or(gone, "runtime_target", Local, Canonical(t)))
  {
  }

  lemma ReadsSchedule(m: Fields, gone: set<string>, s: RestartSchedule)
    requires Shows(m, gone, "autoRestartSchedule", EncodeSchedule(s))
    ensures DefSchedule(m, "autoRestartSchedule")
      == Some(Or(gone, "autoRestartSchedule", RestartSchedule(false, Hour, 6), s))
  {
    hide DecodeSchedule;
    ScheduleReads(s, {});
    assert FieldsOf(EncodeSchedule(s)) - {} == FieldsOf(EncodeSchedule(s));
  }

  lemma ReadsId(m: Fields, gone: set<string>, n: U64)
    requires Shows(m, gone, "QQID", Int(n))
    ensures ReqU64(m, "QQID") == if "QQID" in gone then None else Some(n)
  {
  }

  lemma ReadsStartMode(b: BotBasic, gone: set<string>)
    ensures MaybeStartMode(EncodeBasic(b) - gone, "snowlumaStartMode")
      == Some(Or(gone, "snowlumaStartMode", None, b.startMode))
  {
    hide EncodeSchedule, EncodeTarget, EncodeBackend, EncodeDeployment;
  }

  /** A bot section needs a name and an id. */
  lemma BasicReads(b: BotBasic, gone: set<string>)
    ensures DecodeBasic(Obj(EncodeBasic(b) - gone))
      == if "name" in gone || "QQID" in gone then None else Some(BasicWithout(b, gone))
  {
    hide Shows, EncodeBasic, ReqString, ReqU64, DefString, DefSchedule, DefBool, DefTarget, DefBackend, DefDeployment,
      MaybeStartMode, Or, Canonical;
    var m := EncodeBasic(b) - gone;
    BasicShows(b, gone);
    ReadsString(m, gone, "name", "", b.name);
    ReadsId(m, gone, b.qqId);
    ReadsString(m, gone, "musicSignUrl", "", b.musicSignUrl);
    ReadsSchedule(m, gone, b.schedule);
    ReadsBool(m, gone, "offlineAutoRestart", false, b.offlineAutoRestart);
    ReadsTarget(m, gone, b.target);
    ReadsKinds(m, gone, b);
    ReadsStartMode(b, gone);
  }
}
