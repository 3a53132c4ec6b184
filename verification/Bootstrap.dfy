/**
 Starting the application over and over: detecting the schema, migrating or seeding, saving the
 report.  Reads, commits and the report's own write may each fail, differently every time.
 */
module Bootstrap {
  import opened Common
  import opened JsonModel
  import opened DiskModel
  import App = AppMigration
  import Bot = BotMigration
  import Model = BotConfigModel
  import Codec = BotCodec
  import RoundTrip = BotRoundTrip

  /** The files a bootstrap looks at or writes. */
  datatype Slot = Report | LegacyReport | BotJson | LegacyBot | Settings | ConfigJson | Servers | Summary(id: string)

  type SlotFiles = map<Slot, Content>

  datatype Source = Source(readable: bool, v: Json)

  /** What discovery found first. */
  datatype Selection = Selection(app: Option<Source>, server: Option<Source>, bot: Option<Source>)

  /** One start: which operations succeed, what discovery finds, and the code that is not modelled. */
  datatype Start = Start(
    readFails: Slot -> bool,
    discovered: Option<Option<Selection>>,
    commits: bool,
    saves: bool,
    env: Bot.Env,
    reportBody: map<string, Json>,
    seedOf: Json -> Option<Json>,
    serverOf: Json -> Option<Option<Json>>,
    legacyServerOf: Json -> Option<Option<Json>>,
    summariesOf: Json -> seq<(string, Json)>)

  const CURRENT: nat := 3
  const SCHEMA_VERSION: string := "schema_version"

  // ---------------------------------------------------------------- detecting the schema

  function ReadSlot(files: SlotFiles, start: Start, slot: Slot): Option<Json> {
    if slot in files && !start.readFails(slot) && files[slot].Document? then Some(files[slot].v) else None
  }

  /** The version a report states: a `u64`, of which sixteen bits are kept. */
  function StatedVersion(v: Json): Option<nat> {
    match Get(v, SCHEMA_VERSION)
    case None => None
    case Some(x) => (match AsU64(x) case None => None case Some(n) => Some(n % 0x1_0000))
  }

  function ReportVersion(files: SlotFiles, start: Start, candidates: seq<Slot>): Option<nat> {
    if candidates == [] then None
    else
      var stated := match ReadSlot(files, start, candidates[0]) case None => None case Some(v) => StatedVersion(v);
      if stated.Some? then stated else ReportVersion(files, start, candidates[1..])
  }

  /** `schemaVersion` if there is one at all, else `schema_version`. */
  function BotSchema(v: Json): Option<nat> {
    match Get(v, "schemaVersion")
    case Some(x) => AsU64(x)
    case None => match Get(v, SCHEMA_VERSION) case Some(x) => AsU64(x) case None => None
  }

  function BotVersion(v: Json): nat {
    var schema := BotSchema(v);
    if schema.Some? && schema.value >= CURRENT then CURRENT
    else
      match Get(v, "info")
      case Some(info) => if Get(info, "configVersion").Some? then 2 else 1
      case None => 1
  }

  /** `load_schema_version`; nothing when the bot file cannot be read. */
  function LoadSchemaVersion(files: SlotFiles, start: Start): Option<nat> {
    var stated := ReportVersion(files, start, [Report, LegacyReport]);
    if stated.Some? then stated
    else
      var slot := if BotJson in files then BotJson else LegacyBot;
      if slot !in files then Some(1)
      else match ReadSlot(files, start, slot) case None => None case Some(v) => Some(BotVersion(v))
  }

  // ---------------------------------------------------------------- what a run wants written

  type Writes = seq<(Slot, Json)>

  datatype Kind = Nothing | Seeded | Migrated | Initialized

  datatype Plan = Refused | Planned(kind: Kind, writes: Writes)

  const APP_SECTIONS: set<string> := {
    "Info", "General", "Personalize", "Personalized", "QFluentWidgets", "Home", "HideTips", "Remote", "Event", "WebHook",
    "Email", "Performance"}

  predicate LooksLikeAppConfig(v: Json) {
    v.Obj? && exists k | k in APP_SECTIONS :: k in v.fields
  }

  /** `seed_app_settings_from_existing_config_if_needed`. */
  function SeedPlan(files: SlotFiles, start: Start): Plan {
    if Settings in files then Planned(Nothing, [])
    else
      match ReadSlot(files, start, ConfigJson)
      case None => Planned(Nothing, [])
      case Some(raw) =>
        if !LooksLikeAppConfig(raw) then Planned(Nothing, [])
        else match start.seedOf(raw) case None => Planned(Nothing, []) case Some(seed) => Planned(Seeded, [(Settings, seed)])
  }

  function AppWrites(files: SlotFiles, start: Start, raw: Json): Writes {
    [(ConfigJson, App.Migrated(raw).payload)]
    + (match start.seedOf(raw)
       case None => []
       case Some(seed) => if Settings in files then [] else [(Settings, seed)])
  }

  /** The remote server file: from its own source, else from the old application configuration. */
  function ServerWrites(start: Start, selection: Selection, app: Option<Json>): Option<Writes> {
    match selection.server
    case Some(source) =>
      if !source.readable then None
      else
        (match start.serverOf(source.v)
         case Some(Some(payload)) => Some([(Servers, payload)])
         case _ => Some([]))
    case None =>
      match app
      case None => Some([])
      case Some(raw) =>
        match start.legacyServerOf(raw)
        case None => None
        case Some(None) => Some([])
        case Some(Some(payload)) => Some([(Servers, payload)])
  }

  function SummaryWrites(summaries: seq<(string, Json)>): Writes {
    seq(|summaries|, i requires 0 <= i < |summaries| => (Summary(summaries[i].0), summaries[i].1))
  }

  function BotWrites(start: Start, raw: Json): Option<Writes> {
    match Bot.Migration(start.env, raw)
    case Err(_) => None
    case Ok(m) => Some([(BotJson, m.payload)] + SummaryWrites(start.summariesOf(raw)))
  }

  /** `migrate_selection`, up to the commit. */
  function SelectionPlan(files: SlotFiles, start: Start, selection: Selection): Plan {
    if selection.app.Some? && !selection.app.value.readable then Refused
    else
      var app := if selection.app.Some? && LooksLikeAppConfig(selection.app.value.v) then Some(selection.app.value.v) else None;
      var appWrites := if app.Some? then AppWrites(files, start, app.value) else [];
      var serverWrites := ServerWrites(start, selection, app);
      var botWrites := if selection.bot.None? then Some([])
                       else if !selection.bot.value.readable then None
                       else BotWrites(start, selection.bot.value.v);
      if serverWrites.None? || botWrites.None? then Refused
      else
        var writes := appWrites + serverWrites.value + botWrites.value;
        Planned(if writes == [] then Nothing else Migrated, writes)
  }

  function EmptyBotJson(): Json {
    Codec.RootPayload([])
  }

  /** `run`, up to the commit. */
  function RunPlan(files: SlotFiles, start: Start): Plan {
    match LoadSchemaVersion(files, start)
    case None => Refused
    case Some(version) =>
      if version == CURRENT then SeedPlan(files, start)
      else
        match start.discovered
        case None => Refused
        case Some(None) => Planned(Initialized, [(BotJson, EmptyBotJson())])
        case Some(Some(selection)) => SelectionPlan(files, start, selection)
  }

  function WriteAll(files: SlotFiles, writes: Writes): SlotFiles {
    if writes == [] then files
    else
      var n := |writes| - 1;
      WriteAll(files, writes[..n])[writes[n].0 := Document(writes[n].1)]
  }

  /** The report as it is saved: stamped with the current version, whatever the run came to. */
  function Stamped(start: Start): Json {
    Obj(start.reportBody[SCHEMA_VERSION := Int(CURRENT)])
  }

  function SaveReport(files: SlotFiles, start: Start): SlotFiles {
    if start.saves then files[Report := Document(Stamped(start))] else files
  }

  /** The kind of transaction a start commits. */
  function Committed(files: SlotFiles, start: Start): Kind {
    var plan := RunPlan(files, start);
    if plan.Refused? || !start.commits then Nothing else plan.kind
  }

  /** What a start leaves on disk. */
  function After(files: SlotFiles, start: Start): SlotFiles {
    var plan := RunPlan(files, start);
    SaveReport(if plan.Planned? && start.commits then WriteAll(files, plan.writes) else files, start)
  }

  class Orchestrator {
    var files: SlotFiles

    constructor (files: SlotFiles)
      ensures this.files == files
    {
      this.files := files;
    }

    /** A transaction takes effect whole or not at all. */
    method ApplyTransaction(start: Start, writes: Writes) returns (ok: bool)
      modifies this
      ensures ok == start.commits
      ensures files == if ok then WriteAll(old(files), writes) else old(files)
    {
      ok := start.commits;
      if ok {
        for i := 0 to |writes|
          invariant files == WriteAll(old(files), writes[..i])
        {
          assert writes[..i + 1][..i] == writes[..i];
          files := files[writes[i].0 := Document(writes[i].1)];
        }
        assert writes[..|writes|] == writes;
      }
    }

    /** `migrate_selection`: the transaction grows section by section. */
    method PlanSelection(start: Start, selection: Selection) returns (plan: Plan)
      ensures plan == SelectionPlan(files, start, selection)
    {
      hide LooksLikeAppConfig, App.Migrated, BotWrites, ServerWrites, AppWrites;
      var tx: Writes := [];
      var app: Option<Json> := None;
      if selection.app.Some? {
        if !selection.app.value.readable {
          return Refused;
        }
        var raw := selection.app.value.v;
        if LooksLikeAppConfig(raw) {
          app := Some(raw);
          tx := PlanApp(start, raw);
        }
      }
      var server := ServerWrites(start, selection, app);
      if server.None? {
        return Refused;
      }
      ghost var appTx := tx;
      tx := tx + server.value;
      if selection.bot.Some? {
        if !selection.bot.value.readable {
          return Refused;
        }
        var bot := PlanBot(start, selection.bot.value.v);
        if bot.None? {
          return Refused;
        }
        tx := tx + bot.value;
      } else {
        assert appTx + server.value + [] == tx;
      }
      return Planned(if tx == [] then Nothing else Migrated, tx);
    }

    method PlanApp(start: Start, raw: Json) returns (tx: Writes)
      ensures tx == AppWrites(files, start, raw)
    {
      hide App.Migrated;
      tx := [(ConfigJson, App.Migrated(raw).payload)];
      var seed := start.seedOf(raw);
      if seed.Some? && Settings !in files {
        tx := tx + [(Settings, seed.value)];
      }
    }

    method PlanBot(start: Start, raw: Json) returns (writes: Option<Writes>)
      ensures writes == BotWrites(start, raw)
    {
      hide Bot.Migration;
      var migrated := Bot.Migration(start.env, raw);
      if migrated.Err? {
        return None;
      }
      var summaries := start.summariesOf(raw);
      var tx: Writes := [(BotJson, migrated.value.payload)];
      for i := 0 to |summaries|
        invariant tx == [(BotJson, migrated.value.payload)] + SummaryWrites(summaries[..i])
      {
        assert SummaryWrites(summaries[..i + 1]) == SummaryWrites(summaries[..i]) + [(Summary(summaries[i].0), summaries[i].1)];
        tx := tx + [(Summary(summaries[i].0), summaries[i].1)];
      }
      assert summaries[..|summaries|] == summaries;
      return Some(tx);
    }

    /** `run`: `ok` is false when the run failed. */
    method Run(start: Start) returns (ok: bool, ghost kind: Kind)
      modifies this
      ensures kind == Committed(old(files), start)
      ensures var plan := RunPlan(old(files), start);
        && (ok <==> plan.Planned? && (plan.kind == Nothing || start.commits))
        && files == if plan.Planned? && start.commits then WriteAll(old(files), plan.writes) else old(files)
    {
      hide LoadSchemaVersion, SelectionPlan, EmptyBotJson;
      kind := Nothing;
      var version := LoadSchemaVersion(files, start);
      if version.None? {
        return false, kind;
      }
      var plan: Plan;
      if version.value == CURRENT {
        plan := SeedPlan(files, start);
      } else if start.discovered.None? {
        return false, kind;
      } else if start.discovered.value.None? {
        plan := Planned(Initialized, [(BotJson, EmptyBotJson())]);
      } else {
        plan := PlanSelection(start, start.discovered.value.value);
      }
      if plan.Refused? {
        return false, kind;
      }
      PlanKinds(files, start);
      if plan.kind == Nothing {
        return true, kind;
      }
      ok := ApplyTransaction(start, plan.writes);
      kind := if ok then plan.kind else Nothing;
    }

    /** `bootstrap`: the report is saved after a success and after a failure alike. */
    method Bootstrap(start: Start) returns (ghost kind: Kind)
      modifies this
      ensures files == After(old(files), start) && kind == Committed(old(files), start)
    {
      hide RunPlan, Stamped;
      var ok;
      ok, kind := Run(start);
      if start.saves && !(Report in files && files[Report] == Document(Stamped(start))) {
        files := files[Report := Document(Stamped(start))];
      }
    }
  }

  /** A plan of kind `Nothing` writes nothing, and the others write something. */
  lemma PlanKinds(files: SlotFiles, start: Start)
    ensures var plan := RunPlan(files, start); plan.Planned? ==> (plan.kind == Nothing <==> plan.writes == [])
  {
    hide LoadSchemaVersion, ServerWrites, AppWrites, BotWrites, LooksLikeAppConfig, EmptyBotJson;
  }

  // ---------------------------------------------------------------- any sequence of starts

  function Starts(files: SlotFiles, starts: seq<Start>): SlotFiles {
    if starts == [] then files else After(Starts(files, starts[..|starts| - 1]), starts[|starts| - 1])
  }

  lemma {:induction false} WriteAllElsewhere(files: SlotFiles, writes: Writes, slot: Slot)
    requires forall w | w in writes :: w.0 != slot
    ensures Lookup(WriteAll(files, writes), slot) == Lookup(files, slot)
  {
    if writes != [] {
      WriteAllElsewhere(files, writes[..|writes| - 1], slot);
      assert writes[|writes| - 1] in writes;
    }
  }

  predicate Spares(writes: Writes, files: SlotFiles) {
    forall w | w in writes :: w.0 != Report && (Settings in files ==> w.0 != Settings)
  }

  lemma SparesBoth(a: Writes, b: Writes, files: SlotFiles)
    requires Spares(a, files) && Spares(b, files)
    ensures Spares(a + b, files)
  {
  }

  lemma BotWritesSpare(files: SlotFiles, start: Start, raw: Json)
    ensures BotWrites(start, raw).Some? ==> Spares(BotWrites(start, raw).value, files)
  {
    hide Bot.Migration;
  }

  lemma SelectionSpares(files: SlotFiles, start: Start, selection: Selection)
    ensures var plan := SelectionPlan(files, start, selection); plan.Planned? ==> Spares(plan.writes, files)
  {
    hide LooksLikeAppConfig, BotWrites, App.Migrated;
    var plan := SelectionPlan(files, start, selection);
    if plan.Planned? {
      var app := if selection.app.Some? && LooksLikeAppConfig(selection.app.value.v) then Some(selection.app.value.v) else None;
      var first := if app.Some? then AppWrites(files, start, app.value) else [];
      var second := ServerWrites(start, selection, app).value;
      SparesBoth(first, second, files);
      if selection.bot.Some? {
        BotWritesSpare(files, start, selection.bot.value.v);
        SparesBoth(first + second, BotWrites(start, selection.bot.value.v).value, files);
      } else {
        assert first + second + [] == first + second;
      }
    }
  }

  /** No plan writes the report, and none writes settings that exist. */
  lemma PlansSpare(files: SlotFiles, start: Start)
    ensures var plan := RunPlan(files, start); plan.Planned? ==> Spares(plan.writes, files)
  {
    hide LoadSchemaVersion, LooksLikeAppConfig, SelectionPlan, EmptyBotJson;
    if start.discovered.Some? && start.discovered.value.Some? {
      SelectionSpares(files, start, start.discovered.value.value);
    }
  }

  /** An existing `app-settings.json` is never overwritten. */
  lemma {:induction false} SettingsNeverOverwritten(files: SlotFiles, starts: seq<Start>)
    requires Settings in files
    ensures Lookup(Starts(files, starts), Settings) == Lookup(files, Settings)
  {
    hide RunPlan, Stamped;
    if starts != [] {
      var n := |starts| - 1;
      SettingsNeverOverwritten(files, starts[..n]);
      var before := Starts(files, starts[..n]);
      PlansSpare(before, starts[n]);
      if RunPlan(before, starts[n]).Planned? {
        WriteAllElsewhere(before, RunPlan(before, starts[n]).writes, Settings);
      }
    }
  }

  /** The report on disk states the current version. */
  predicate Marked(files: SlotFiles) {
    Report in files && files[Report].Document? && StatedVersion(files[Report].v) == Some(CURRENT)
  }

  lemma StampedMarks(start: Start)
    ensures StatedVersion(Stamped(start)) == Some(CURRENT)
    ensures Get(Stamped(start), "schema_version") == Some(Int(3))
  {
  }

  predicate SaysThree(report: Option<Content>) {
    report.Some? && report.value.Document? && Get(report.value.v, "schema_version") == Some(Int(3))
  }

  /** One saved report marks the disk, even that of a start that failed; the mark stays. */
  lemma SavedMeansMarked(files: SlotFiles, start: Start)
    ensures start.saves || Marked(files) ==> Marked(After(files, start))
    ensures start.saves ==> SaysThree(Lookup(After(files, start), Report))
  {
    hide RunPlan, StatedVersion, Stamped;
    StampedMarks(start);
    PlansSpare(files, start);
    if RunPlan(files, start).Planned? {
      WriteAllElsewhere(files, RunPlan(files, start).writes, Report);
    }
  }

  function LegacyVersion(files: SlotFiles, start: Start): Option<nat> {
    match ReadSlot(files, start, LegacyReport) case None => None case Some(v) => StatedVersion(v)
  }

  function BotSlot(files: SlotFiles): Slot {
    if BotJson in files then BotJson else LegacyBot
  }

  function BotFile(files: SlotFiles, start: Start): Option<Json> {
    ReadSlot(files, start, BotSlot(files))
  }

  /** A report states a version exactly by an unsigned 64-bit number, of which 16 bits count; a bot file is
      current by a number of at least three under either name, the first name deciding. */
  lemma VersionsAreStatedBy(v: Json)
    ensures StatedVersion(v) == Some(3) <==>
      match Get(v, "schema_version")
      case Some(Int(i)) => 0 <= i < 0x1_0000_0000_0000_0000 && i % 0x1_0000 == 3
      case _ => false
    ensures BotVersion(v) == 3 <==> Names3(if Get(v, "schemaVersion").Some? then Get(v, "schemaVersion") else Get(v, "schema_version"))
    ensures BotVersion(v) != 3 ==>
      BotVersion(v) == if Get(v, "info").Some? && Get(Get(v, "info").value, "configVersion").Some? then 2 else 1
    ensures CURRENT == 3
  {
  }

  predicate Names3(x: Option<Json>) {
    match x case Some(Int(i)) => 3 <= i < 0x1_0000_0000_0000_0000 case _ => false
  }

  /** What a start has to find on a marked disk: the report, or an old report that states the
      current version, or, when no old report states one, a bot file that does. */
  predicate Seen(files: SlotFiles, start: Start) {
    || !start.readFails(Report)
    || LegacyVersion(files, start) == Some(CURRENT)
    || (LegacyVersion(files, start).None? && BotFile(files, start).Some? && BotVersion(BotFile(files, start).value) == CURRENT)
  }

  /** No report can be read, and neither can the bot file that is there. */
  predicate Unknown(files: SlotFiles, start: Start) {
    start.readFails(Report) && LegacyVersion(files, start).None? && BotSlot(files) in files && BotFile(files, start).None?
  }

  lemma TwoReports(files: SlotFiles, start: Start)
    ensures ReportVersion(files, start, [Report, LegacyReport])
      == var first := match ReadSlot(files, start, Report) case None => None case Some(v) => StatedVersion(v);
         if first.Some? then first else LegacyVersion(files, start)
  {
    assert [Report, LegacyReport][1..] == [LegacyReport] && [LegacyReport][1..] == [];
    assert ReportVersion(files, start, [LegacyReport]) == LegacyVersion(files, start);
  }

  /** Exactly when a marked disk is taken for a current one, and when it is not taken for anything. */
  lemma CurrentIffSeen(files: SlotFiles, start: Start)
    requires Marked(files)
    ensures LoadSchemaVersion(files, start) == Some(CURRENT) <==> Seen(files, start)
    ensures LoadSchemaVersion(files, start) == None <==> Unknown(files, start)
  {
    hide BotVersion, StatedVersion;
    TwoReports(files, start);
  }

  /** Exactly when a start on a marked disk overwrites the bot file with an empty one, and exactly
      when it migrates what it discovers. */
  lemma MarkedDiskRunsAgainIff(files: SlotFiles, start: Start)
    requires Marked(files)
    ensures var again := !Seen(files, start) && !Unknown(files, start) && start.commits;
      && (Committed(files, start) == Initialized <==> again && start.discovered == Some(None))
      && (Committed(files, start) == Migrated
          <==> again && start.discovered.Some? && start.discovered.value.Some?
               && FindsWork(files, start, start.discovered.value.value))
  {
    hide LoadSchemaVersion, Seen, Unknown, Marked, LooksLikeAppConfig, EmptyBotJson, ServerWrites, AppWrites, BotWrites;
    CurrentIffSeen(files, start);
  }

  predicate FindsWork(files: SlotFiles, start: Start, selection: Selection) {
    SelectionPlan(files, start, selection).Planned? && SelectionPlan(files, start, selection).writes != []
  }

  /** A start that cannot read the report next to a bot file this program has written, whatever
      bots are in it: all of them are lost. */
  lemma UnreadableReportLosesBots(files: SlotFiles, start: Start, bots: seq<Model.BotConfig>, lower: string -> string)
    requires Marked(files) && start.readFails(Report) && LegacyReport !in files
    requires BotJson in files && files[BotJson] == Document(Codec.BuildRootPayload(bots)) && !start.readFails(BotJson)
    requires start.discovered == Some(None) && start.commits
    ensures Lookup(After(files, start), BotJson) == Some(Document(EmptyBotJson()))
    ensures RoundTrip.Load(start.env, lower, RoundTrip.Doc(EmptyBotJson())) == Ok([])
  {
    hide LoadSchemaVersion, Marked, RoundTrip.Load, RoundTrip.Durable, Codec.BuildRootPayload, StatedVersion, Codec.EncodeBot;
    WrittenVersion(bots);
    assert BotFile(files, start) == Some(Codec.BuildRootPayload(bots));
    CurrentIffSeen(files, start);
    assert RunPlan(files, start) == Planned(Initialized, [(BotJson, EmptyBotJson())]);
    assert [(BotJson, EmptyBotJson())][..0] == [];
    NoBots(start.env, lower);
  }

  lemma WrittenVersion(bots: seq<Model.BotConfig>)
    ensures BotVersion(Codec.BuildRootPayload(bots)) == 2
  {
  }

  lemma NoBots(env: Bot.Env, lower: string -> string)
    ensures RoundTrip.Load(env, lower, RoundTrip.Doc(EmptyBotJson())) == Ok([])
  {
    hide RoundTrip.Load;
    assert Codec.BuildRootPayload([]) == EmptyBotJson();
    RoundTrip.RoundTripIffDurable(env, lower, []);
  }

  /** From a marked disk that is seen, a start can do no more than seed the settings, and only if
      there are none. */
  lemma MarkedOnlySeeds(files: SlotFiles, start: Start)
    requires Marked(files) && Seen(files, start)
    ensures Committed(files, start) == Nothing || (Committed(files, start) == Seeded && Settings !in files)
    ensures Committed(files, start) == Seeded ==> Settings in After(files, start)
    ensures Committed(files, start) == Nothing ==> forall slot | slot != Report :: Lookup(After(files, start), slot) == Lookup(files, slot)
    ensures SameOldFiles(files, After(files, start))
  {
    hide LooksLikeAppConfig, Stamped, SelectionPlan, EmptyBotJson, Seen, LoadSchemaVersion, Marked;
    CurrentIffSeen(files, start);
    assert RunPlan(files, start) == SeedPlan(files, start);
    var writes := RunPlan(files, start).writes;
    assert writes == [] || |writes| == 1;
    if |writes| == 1 {
      assert writes[..0] == [] && writes[0].0 == Settings;
    }
    forall slot | slot != Report && slot != Settings ensures Lookup(After(files, start), slot) == Lookup(files, slot) {
      WriteAllElsewhere(files, writes, slot);
    }
  }

  /** The settings a start writes on a marked disk that is seen: none if there are settings, else the
      seed of the application configuration, if one can be read and has any. */
  lemma SeedIsWritten(files: SlotFiles, start: Start)
    requires Marked(files) && Seen(files, start)
    ensures Lookup(After(files, start), Settings)
      == if Settings in files || !start.commits || SeedOf(files, start).None? then Lookup(files, Settings)
         else Some(Document(SeedOf(files, start).value))
  {
    hide LooksLikeAppConfig, Stamped, SelectionPlan, EmptyBotJson, Seen, LoadSchemaVersion, Marked;
    CurrentIffSeen(files, start);
    assert RunPlan(files, start) == SeedPlan(files, start);
    if SeedOf(files, start).Some? {
      OneWrite(files, Settings, SeedOf(files, start).value);
    }
  }

  function SeedOf(files: SlotFiles, start: Start): Option<Json> {
    if ConfigJson in files && !start.readFails(ConfigJson) && files[ConfigJson].Document?
       && LooksLikeAppConfig(files[ConfigJson].v)
    then start.seedOf(files[ConfigJson].v) else None
  }

  /** The files beside the report that a start looks at to tell the version. */
  predicate SameOldFiles(files: SlotFiles, files': SlotFiles) {
    forall slot | slot in [LegacyReport, BotJson, LegacyBot] :: Lookup(files', slot) == Lookup(files, slot)
  }

  lemma SeenInSameFiles(files: SlotFiles, files': SlotFiles, start: Start)
    requires SameOldFiles(files, files')
    ensures Seen(files', start) <==> Seen(files, start)
  {
    hide StatedVersion, BotVersion;
    var slots := [LegacyReport, BotJson, LegacyBot];
    assert slots[0] in slots && slots[1] in slots && slots[2] in slots;
  }

  /** How many transactions a sequence of starts commits. */
  function Commits(files: SlotFiles, starts: seq<Start>): nat {
    if starts == [] then 0
    else
      var n := |starts| - 1;
      Commits(files, starts[..n]) + if Committed(Starts(files, starts[..n]), starts[n]) == Nothing then 0 else 1
  }

  /** Once a report has been saved and is seen by the later starts, none of them migrates or
      initialises anything, and all of them together commit at most one transaction, the seed;
      none if the settings exist. */
  lemma {:induction false} AtMostOneMore(files: SlotFiles, starts: seq<Start>)
    requires Marked(files) && forall i | 0 <= i < |starts| :: Seen(files, starts[i])
    ensures Marked(Starts(files, starts)) && SameOldFiles(files, Starts(files, starts))
    ensures Commits(files, starts) <= 1
    ensures Settings in files ==> Commits(files, starts) == 0
    ensures Commits(files, starts) == 1 ==> Settings in Starts(files, starts)
    ensures Settings in files ==> Settings in Starts(files, starts)
    ensures forall i | 0 <= i < |starts| ::
              var kind := Committed(Starts(files, starts[..i]), starts[i]); kind == Nothing || kind == Seeded
  {
    hide Committed, After, Marked, StatedVersion, Seen;
    if starts != [] {
      var n := |starts| - 1;
      AtMostOneMore(files, starts[..n]);
      var before := Starts(files, starts[..n]);
      SeenInSameFiles(files, before, starts[n]);
      SavedMeansMarked(before, starts[n]);
      MarkedOnlySeeds(before, starts[n]);
      SettingsStay(before, starts[n]);
      forall i | 0 <= i < |starts|
        ensures var kind := Committed(Starts(files, starts[..i]), starts[i]); kind == Nothing || kind == Seeded
      {
        if i < n {
          assert starts[..n][..i] == starts[..i] && starts[..n][i] == starts[i];
        }
      }
    }
  }

  lemma SettingsStay(files: SlotFiles, start: Start)
    ensures Settings in files ==> Settings in After(files, start)
  {
    hide After;
    if Settings in files {
      SettingsNeverOverwritten(files, [start]);
      assert [start][..0] == [] && Starts(files, []) == files;
    }
  }

  /** A first start that fails, be it before its commit or at it, marks the disk too: what it
      could not migrate stays unmigrated. */
  lemma FailedStartMarks(files: SlotFiles, start: Start, later: Start)
    requires (RunPlan(files, start) == Refused || !start.commits) && start.saves && Seen(files, later)
    ensures forall slot | slot != Report :: Lookup(After(files, start), slot) == Lookup(files, slot)
    ensures Committed(After(files, start), later) == Nothing || Committed(After(files, start), later) == Seeded
  {
    hide RunPlan, Committed, Marked, Seen;
    SavedMeansMarked(files, start);
    SeenInSameFiles(files, After(files, start), later);
    MarkedOnlySeeds(After(files, start), later);
  }

  // ---------------------------------------------------------------- what a migration writes

  lemma {:induction false} WriteAllAppend(files: SlotFiles, a: Writes, b: Writes)
    ensures WriteAll(files, a + b) == WriteAll(WriteAll(files, a), b)
    decreases |b|
  {
    if b == [] {
      assert a + b == a;
    } else {
      var n := |b| - 1;
      assert (a + b)[..|a + b| - 1] == a + b[..n];
      WriteAllAppend(files, a, b[..n]);
    }
  }

  lemma OneWrite(files: SlotFiles, slot: Slot, v: Json)
    ensures WriteAll(files, [(slot, v)]) == files[slot := Document(v)]
  {
    assert [(slot, v)][..0] == [];
  }

  /** Writes after which a slot holds this document. */
  lemma WrittenLast(files: SlotFiles, before: Writes, slot: Slot, v: Json, later: Writes)
    requires forall w | w in later :: w.0 != slot
    ensures Lookup(WriteAll(files, before + ([(slot, v)] + later)), slot) == Some(Document(v))
  {
    WriteAllAppend(files, before, [(slot, v)] + later);
    WriteAllAppend(WriteAll(files, before), [(slot, v)], later);
    OneWrite(WriteAll(files, before), slot, v);
    WriteAllElsewhere(WriteAll(WriteAll(files, before), [(slot, v)]), later, slot);
  }

  /** A start that migrates what it discovered. */
  ghost predicate Migrates(files: SlotFiles, start: Start, selection: Selection) {
    && LoadSchemaVersion(files, start).Some? && LoadSchemaVersion(files, start).value != CURRENT
    && start.discovered == Some(Some(selection)) && SelectionPlan(files, start, selection).Planned? && start.commits
  }

  /** The old bot file is replaced by its migration, from which the same bots load. */
  lemma MigratedBotsAreWritten(files: SlotFiles, start: Start, selection: Selection, lower: string -> string)
    requires Migrates(files, start, selection) && selection.bot.Some?
    ensures var raw := selection.bot.value.v;
      && Bot.Migration(start.env, raw).Ok?
      && Lookup(After(files, start), BotJson) == Some(Document(Bot.Migration(start.env, raw).value.payload))
      && RoundTrip.Load(start.env, lower, RoundTrip.Doc(Bot.Migration(start.env, raw).value.payload))
         == RoundTrip.Load(start.env, lower, RoundTrip.Doc(raw))
  {
    hide LoadSchemaVersion, Bot.Migration, RoundTrip.Load, LooksLikeAppConfig, AppWrites, ServerWrites, Stamped;
    var raw := selection.bot.value.v;
    RoundTrip.MigratedLoadsTheSame(start.env, start.env, lower, raw);
    var app := if selection.app.Some? && LooksLikeAppConfig(selection.app.value.v) then Some(selection.app.value.v) else None;
    var first := if app.Some? then AppWrites(files, start, app.value) else [];
    var second := ServerWrites(start, selection, app).value;
    var payload := Bot.Migration(start.env, raw).value.payload;
    var summaries := SummaryWrites(start.summariesOf(raw));
    assert RunPlan(files, start).writes == first + second + ([(BotJson, payload)] + summaries);
    WrittenLast(files, first + second, BotJson, payload, summaries);
  }

  /** The writes of an application configuration come first; the others are for other files. */
  lemma AppWritesComeFirst(files: SlotFiles, start: Start, selection: Selection) returns (later: Writes)
    requires Migrates(files, start, selection) && selection.app.Some? && LooksLikeAppConfig(selection.app.value.v)
    ensures RunPlan(files, start).Planned?
    ensures RunPlan(files, start).writes == AppWrites(files, start, selection.app.value.v) + later
    ensures forall w | w in later :: w.0 == Servers || w.0 == BotJson || w.0.Summary?
  {
    hide LoadSchemaVersion, LooksLikeAppConfig, AppWrites, ServerWrites, BotWrites;
    var raw := selection.app.value.v;
    OthersWrite(start, selection, Some(raw));
    later := ServerWrites(start, selection, Some(raw)).value
      + if selection.bot.None? then [] else BotWrites(start, selection.bot.value.v).value;
  }

  /** The old application configuration is replaced by its migration, and its notification settings
      are seeded unless there are settings already. */
  lemma MigratedAppIsWritten(files: SlotFiles, start: Start, selection: Selection)
    requires Migrates(files, start, selection) && selection.app.Some? && LooksLikeAppConfig(selection.app.value.v)
    ensures var raw := selection.app.value.v;
      && Lookup(After(files, start), ConfigJson) == Some(Document(App.Migrated(raw).payload))
      && Lookup(After(files, start), Settings)
         == if Settings in files || start.seedOf(raw).None? then Lookup(files, Settings)
            else Some(Document(start.seedOf(raw).value))
  {
    hide RunPlan, Migrates, LooksLikeAppConfig, App.Migrated, Stamped, WriteAll;
    var raw := selection.app.value.v;
    var payload, seed := App.Migrated(raw).payload, start.seedOf(raw);
    var later := AppWritesComeFirst(files, start, selection);
    assert start.commits by { Committing(files, start, selection); }
    var writes := RunPlan(files, start).writes;
    if Settings in files || seed.None? {
      assert writes == [] + ([(ConfigJson, payload)] + later);
      WrittenLast(files, [], ConfigJson, payload, later);
      WriteAllElsewhere(files, writes, Settings);
    } else {
      var both := [(Settings, seed.value)] + later;
      assert writes == [] + ([(ConfigJson, payload)] + both) == [(ConfigJson, payload)] + both;
      WrittenLast(files, [], ConfigJson, payload, both);
      WrittenLast(files, [(ConfigJson, payload)], Settings, seed.value, later);
    }
  }

  lemma Committing(files: SlotFiles, start: Start, selection: Selection)
    requires Migrates(files, start, selection)
    ensures start.commits
  {
  }

  /** The profiles a migration writes: those of the server file it found, else those of the application
      configuration. */
  function NewServers(start: Start, selection: Selection): Option<Json> {
    match selection.server
    case Some(source) => (match start.serverOf(source.v) case Some(Some(p)) => Some(p) case _ => None)
    case None =>
      match selection.app
      case Some(source) =>
        if !LooksLikeAppConfig(source.v) then None
        else (match start.legacyServerOf(source.v) case Some(Some(p)) => Some(p) case _ => None)
      case None => None
  }

  lemma ServerPart(files: SlotFiles, start: Start, selection: Selection)
    requires SelectionPlan(files, start, selection).Planned?
    ensures selection.server.Some? ==> selection.server.value.readable
    ensures var app := if selection.app.Some? && LooksLikeAppConfig(selection.app.value.v) then Some(selection.app.value.v) else None;
      ServerWrites(start, selection, app)
      == Some(match NewServers(start, selection) case Some(p) => [(Servers, p)] case None => [])
  {
    hide LooksLikeAppConfig, AppWrites, BotWrites;
  }

  lemma AppPart(files: SlotFiles, start: Start)
    ensures forall raw :: forall w | w in AppWrites(files, start, raw) :: w.0 == ConfigJson || w.0 == Settings
  {
    hide App.Migrated;
  }

  /** A found server file has been read, and the profiles are written exactly if there are any. */
  lemma MigratedServersAreWritten(files: SlotFiles, start: Start, selection: Selection)
    requires Migrates(files, start, selection)
    ensures selection.server.Some? ==> selection.server.value.readable
    ensures Lookup(After(files, start), Servers)
      == match NewServers(start, selection) case Some(p) => Some(Document(p)) case None => Lookup(files, Servers)
  {
    hide LoadSchemaVersion, LooksLikeAppConfig, AppWrites, Stamped, BotWrites, WriteAll, ServerWrites, NewServers;
    ServerPart(files, start, selection);
    AppPart(files, start);
    var app := if selection.app.Some? && LooksLikeAppConfig(selection.app.value.v) then Some(selection.app.value.v) else None;
    var first := if app.Some? then AppWrites(files, start, app.value) else [];
    var later := if selection.bot.None? then [] else BotWrites(start, selection.bot.value.v).value;
    OthersWrite(start, selection, app);
    var writes := RunPlan(files, start).writes;
    if NewServers(start, selection).Some? {
      var p := NewServers(start, selection).value;
      assert writes == first + ([(Servers, p)] + later);
      WrittenLast(files, first, Servers, p, later);
    } else {
      assert writes == first + later;
      WriteAllElsewhere(files, writes, Servers);
    }
  }

  lemma OthersWrite(start: Start, selection: Selection, app: Option<Json>)
    ensures ServerWrites(start, selection, app).Some? ==>
      forall w | w in ServerWrites(start, selection, app).value :: w.0 == Servers
    ensures selection.bot.Some? && BotWrites(start, selection.bot.value.v).Some? ==>
      forall w | w in BotWrites(start, selection.bot.value.v).value :: w.0 == BotJson || w.0.Summary?
  {
    hide Bot.Migration;
  }

  predicate AppSection(k: string) {
    k == "Info" || k == "General" || k == "Personalize" || k == "Personalized" || k == "QFluentWidgets" || k == "Home"
    || k == "HideTips" || k == "Remote" || k == "Event" || k == "WebHook" || k == "Email" || k == "Performance"
  }

  /** What is taken for an old application configuration: an object with one of its sections. */
  lemma LooksLikeAppConfigIff(v: Json)
    ensures LooksLikeAppConfig(v) <==> v.Obj? && exists k :: k in v.fields && AppSection(k)
  {
  }
}
