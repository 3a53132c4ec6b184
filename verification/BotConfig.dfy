/** The typed bot configuration and its validation. */
module BotConfigModel {
  import opened Common
  import opened JsonModel

  type U16 = n: nat | n < 0x1_0000
  type U32 = n: nat | n < 0x1_0000_0000
  type U64 = n: nat | n < 0x1_0000_0000_0000_0000

  datatype Backend = NapCat | SnowLuma
  datatype DeploymentType = Native | Docker
  datatype TimeUnit = Minute | Hour | Day | Month | Year
  datatype LogLevel = Debug | Info | Error
  datatype WsRole = Api | Event | Universal
  datatype MessageFormat = ArrayFormat | StringFormat
  datatype HookMode = HookOff | HookOn
  datatype StartMode = ColdStart | HotStart
  datatype RuntimeTarget = Local | Server(id: string)

  datatype RestartSchedule = RestartSchedule(enable: bool, unit: TimeUnit, duration: U32)

  datatype Bypass = Bypass(hook: bool, window: bool, mod: bool, process: bool, container: bool, js: bool)

  datatype BotBasic = BotBasic(
    name: string, qqId: U64, musicSignUrl: string, schedule: RestartSchedule, offlineAutoRestart: bool,
    target: RuntimeTarget, backend: Backend, deployment: DeploymentType, startMode: Option<StartMode>)

  datatype BaseFields = BaseFields(enable: bool, name: string, format: MessageFormat, token: string, debug: bool)

  datatype HttpServer = HttpServer(
    base: BaseFields, host: string, port: U16, enableCors: bool, enableWebsocket: bool, path: string)

  datatype HttpSseServer = HttpSseServer(
    base: BaseFields, host: string, port: U16, enableCors: bool, enableWebsocket: bool, reportSelf: bool)

  datatype HttpClient = HttpClient(base: BaseFields, url: string, reportSelf: bool, timeoutMs: Option<U32>)

  datatype WsServer = WsServer(
    base: BaseFields, host: string, port: U16, reportSelf: bool, forcePush: bool, heart: U32, path: string,
    role: WsRole)

  datatype WsClient = WsClient(
    base: BaseFields, url: string, reportSelf: bool, heart: U32, reconnect: U32, role: WsRole)

  datatype Connect = Connect(
    httpServers: seq<HttpServer>, httpSseServers: seq<HttpSseServer>, httpClients: seq<HttpClient>,
    wsServers: seq<WsServer>, wsClients: seq<WsClient>, plugins: seq<Json>)

  datatype Advanced = Advanced(
    autoStart: bool, offlineNotice: bool, parseMultMsg: bool, packetServer: string, packetBackend: string,
    localFileToUrl: bool, fileLog: bool, consoleLog: bool, fileLogLevel: LogLevel, consoleLogLevel: LogLevel,
    hookMode: HookMode, bypass: Bypass)

  datatype StatusCommand = StatusCommand(enabled: bool, swallow: bool, cooldown: U32)

  datatype BotConfig = BotConfig(
    bot: BotBasic, connect: Connect, advanced: Advanced, statusCommand: Option<StatusCommand>)

  // ---------------------------------------------------------------- validation

  datatype BotConfigError =
    | InvalidQqId(id: nat)
    | DuplicateConnectName(name: string)
    | DuplicateQqId(id: nat)
    | InvalidPort(port: nat)
    | InvalidUrl(url: string)
    | MigrationFailed
    | JsonFailed
    | StorageFailed

  /** What `validate` looks at in one connection entry: its name, and its own defect if any. */
  datatype Endpoint = Endpoint(name: string, defect: Option<BotConfigError>)

  function PortDefect(port: U16): Option<BotConfigError> {
    if port == 0 then Some(InvalidPort(port)) else None
  }

  function UrlDefect(url: string): Option<BotConfigError> {
    if Blank(url) then Some(InvalidUrl(url)) else None
  }

  /** The five lists, in the order `validate` visits them. */
  function Endpoints(c: Connect): seq<Endpoint> {
    seq(|c.httpServers|, i requires 0 <= i < |c.httpServers| =>
      Endpoint(c.httpServers[i].base.name, PortDefect(c.httpServers[i].port)))
    + seq(|c.httpSseServers|, i requires 0 <= i < |c.httpSseServers| =>
      Endpoint(c.httpSseServers[i].base.name, PortDefect(c.httpSseServers[i].port)))
    + seq(|c.httpClients|, i requires 0 <= i < |c.httpClients| =>
      Endpoint(c.httpClients[i].base.name, UrlDefect(c.httpClients[i].url)))
    + seq(|c.wsServers|, i requires 0 <= i < |c.wsServers| =>
      Endpoint(c.wsServers[i].base.name, PortDefect(c.wsServers[i].port)))
    + seq(|c.wsClients|, i requires 0 <= i < |c.wsClients| =>
      Endpoint(c.wsClients[i].base.name, UrlDefect(c.wsClients[i].url)))
  }

  /** Two entries clash when their names, trimmed and lower-cased, are equal and not empty. */
  predicate Clash(lower: string -> string, a: Endpoint, b: Endpoint) {
    Trim(a.name) != "" && Trim(b.name) != "" && lower(Trim(a.name)) == lower(Trim(b.name))
  }

  predicate GoodEndpoints(lower: string -> string, es: seq<Endpoint>) {
    && (forall i | 0 <= i < |es| :: es[i].defect.None?)
    && (forall i, j | 0 <= i < j < |es| :: !Clash(lower, es[i], es[j]))
  }

  /** The error names an entry's own defect, or a name some entry bears. */
  predicate Explained(es: seq<Endpoint>, error: BotConfigError) {
    (exists e | e in es :: e.defect == Some(error))
    || (error.DuplicateConnectName? && exists e | e in es :: Trim(e.name) == error.name != "")
  }

  predicate Valid(lower: string -> string, c: BotConfig) {
    c.bot.qqId != 0 && GoodEndpoints(lower, Endpoints(c.connect))
  }

  /** `check_connect_name`: the map from normalised to original names, extended or refused. */
  function CheckConnectName(lower: string -> string, seen: map<string, string>, name: string)
    : Result<map<string, string>, BotConfigError>
  {
    var original := Trim(name);
    if original == "" then Ok(seen)
    else if lower(original) in seen then Err(DuplicateConnectName(seen[lower(original)]))
    else Ok(seen[lower(original) := original])
  }

  /** `validate`: the first defect found, or none exactly for valid configurations. */
  method Validate(lower: string -> string, c: BotConfig) returns (r: Option<BotConfigError>)
    ensures r.None? <==> Valid(lower, c)
    ensures c.bot.qqId == 0 ==> r == Some(InvalidQqId(0))
    ensures c.bot.qqId != 0 && r.Some? ==> Explained(Endpoints(c.connect), r.value)
  {
    if c.bot.qqId == 0 {
      return Some(InvalidQqId(c.bot.qqId));
    }
    r := ValidateEndpoints(lower, Endpoints(c.connect));
  }

  /** The five loops of `validate`, with the one map of names they share. */
  method ValidateEndpoints(lower: string -> string, es: seq<Endpoint>) returns (r: Option<BotConfigError>)
    ensures r.None? <==> GoodEndpoints(lower, es)
    ensures r.Some? ==> Explained(es, r.value)
  {
    var seen: map<string, string> := map[];
    for i := 0 to |es|
      invariant GoodEndpoints(lower, es[..i])
      invariant forall k | k in seen :: k == lower(seen[k]) && exists j | 0 <= j < i :: Trim(es[j].name) == seen[k] != ""
      invariant forall j | 0 <= j < i && Trim(es[j].name) != "" :: lower(Trim(es[j].name)) in seen
    {
      match CheckConnectName(lower, seen, es[i].name) {
        case Err(error) =>
          var j :| 0 <= j < i && Trim(es[j].name) == seen[lower(Trim(es[i].name))] != "";
          assert Clash(lower, es[j], es[i]);
          assert es[j] in es;
          return Some(error);
        case Ok(seen') =>
          if es[i].defect.Some? {
            assert es[i] in es;
            return es[i].defect;
          }
          seen := seen';
      }
      assert es[..i + 1] == es[..i] + [es[i]];
    }
    assert es[..|es|] == es;
    return None;
  }

  // ---------------------------------------------------------------- what a valid configuration is

  function NamesOf(c: Connect): seq<string> {
    seq(|c.httpServers|, i requires 0 <= i < |c.httpServers| => c.httpServers[i].base.name)
    + seq(|c.httpSseServers|, i requires 0 <= i < |c.httpSseServers| => c.httpSseServers[i].base.name)
    + seq(|c.httpClients|, i requires 0 <= i < |c.httpClients| => c.httpClients[i].base.name)
    + seq(|c.wsServers|, i requires 0 <= i < |c.wsServers| => c.wsServers[i].base.name)
    + seq(|c.wsClients|, i requires 0 <= i < |c.wsClients| => c.wsClients[i].base.name)
  }

  predicate NamesApart(lower: string -> string, names: seq<string>) {
    forall i, j | 0 <= i < j < |names| && Trim(names[i]) != "" && Trim(names[j]) != "" ::
      lower(Trim(names[i])) != lower(Trim(names[j]))
  }

  predicate Reachable(c: Connect) {
    && (forall i | 0 <= i < |c.httpServers| :: c.httpServers[i].port != 0)
    && (forall i | 0 <= i < |c.httpSseServers| :: c.httpSseServers[i].port != 0)
    && (forall i | 0 <= i < |c.wsServers| :: c.wsServers[i].port != 0)
    && (forall i | 0 <= i < |c.httpClients| :: Trim(c.httpClients[i].url) != "")
    && (forall i | 0 <= i < |c.wsClients| :: Trim(c.wsClients[i].url) != "")
  }

  /** A configuration is valid exactly if its id is not zero, every server has a port and every client
      a URL, and no two of its entries, of whatever kind, share a name that is not blank. */
  lemma ValidIff(lower: string -> string, c: BotConfig)
    ensures Valid(lower, c) <==> c.bot.qqId != 0 && Reachable(c.connect) && NamesApart(lower, NamesOf(c.connect))
  {
    hide Trim, Reachable, NamesOf, Endpoints, NamesApart;
    var es, names := Endpoints(c.connect), NamesOf(c.connect);
    NamesOfEndpoints(c.connect);
    NoDefectIff(c.connect);
    NoClashIff(lower, es, names);
  }

  lemma NoClashIff(lower: string -> string, es: seq<Endpoint>, names: seq<string>)
    requires |es| == |names| && forall k | 0 <= k < |es| :: es[k].name == names[k]
    ensures NamesApart(lower, names) <==> forall i, j | 0 <= i < j < |es| :: !Clash(lower, es[i], es[j])
  {
    hide Trim;
    if NamesApart(lower, names) {
      forall i, j | 0 <= i < j < |es| ensures !Clash(lower, es[i], es[j]) {
        assert es[i].name == names[i] && es[j].name == names[j];
      }
    }
    if forall i, j | 0 <= i < j < |es| :: !Clash(lower, es[i], es[j]) {
      forall i, j | 0 <= i < j < |names| && Trim(names[i]) != "" && Trim(names[j]) != ""
        ensures lower(Trim(names[i])) != lower(Trim(names[j]))
      {
        assert !Clash(lower, es[i], es[j]);
      }
    }
  }

  lemma NamesOfEndpoints(c: Connect)
    ensures |Endpoints(c)| == |NamesOf(c)| && forall k | 0 <= k < |NamesOf(c)| :: Endpoints(c)[k].name == NamesOf(c)[k]
  {
    hide Trim;
  }

  lemma DefectsInPlace(c: Connect)
    ensures var es, a := Endpoints(c), |c.httpServers|;
      var b := a + |c.httpSseServers|;
      var d := b + |c.httpClients|;
      var e := d + |c.wsServers|;
      && |es| == e + |c.wsClients|
      && (forall k | 0 <= k < a :: es[k].defect.None? <==> c.httpServers[k].port != 0)
      && (forall k | a <= k < b :: es[k].defect.None? <==> c.httpSseServers[k - a].port != 0)
      && (forall k | b <= k < d :: es[k].defect.None? <==> Trim(c.httpClients[k - b].url) != "")
      && (forall k | d <= k < e :: es[k].defect.None? <==> c.wsServers[k - d].port != 0)
      && (forall k | e <= k < |es| :: es[k].defect.None? <==> Trim(c.wsClients[k - e].url) != "")
  {
    hide Trim;
  }

  lemma NoDefectIff(c: Connect)
    ensures Reachable(c) <==> forall k | 0 <= k < |Endpoints(c)| :: Endpoints(c)[k].defect.None?
  {
    hide Trim, Endpoints;
    DefectsInPlace(c);
    var es := Endpoints(c);
    if forall k | 0 <= k < |es| :: es[k].defect.None? {
      var a := |c.httpServers|;
      var b := a + |c.httpSseServers|;
      var d := b + |c.httpClients|;
      var e := d + |c.wsServers|;
      forall i | 0 <= i < |c.httpServers| ensures c.httpServers[i].port != 0 { assert es[i].defect.None?; }
      forall i | 0 <= i < |c.httpSseServers| ensures c.httpSseServers[i].port != 0 { assert es[a + i].defect.None?; }
      forall i | 0 <= i < |c.httpClients| ensures Trim(c.httpClients[i].url) != "" { assert es[b + i].defect.None?; }
      forall i | 0 <= i < |c.wsServers| ensures c.wsServers[i].port != 0 { assert es[d + i].defect.None?; }
      forall i | 0 <= i < |c.wsClients| ensures Trim(c.wsClients[i].url) != "" { assert es[e + i].defect.None?; }
    }
  }
}
