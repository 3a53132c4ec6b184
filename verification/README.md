# Verification of the configuration subsystem

This project models the part of the desktop manager that keeps bot configurations on disk, and the
small state machines around it, and states and proves what that code is relied on for.  The whole
project is verified with `dafny verify dfyconfig.toml` (Dafny 4.11).

## What is modelled

| files | area |
|---|---|
| `Common`, `Json` | text, results, JSON values (objects are finite maps, as `serde_json` without `preserve_order` keeps them) |
| `Disk`, `Store` | a file system that may fail or stop at any operation; the atomic JSON write with its backup sibling; the transaction with snapshots and rollback |
| `BotConfig`, `BotCodec`, `BotCodecDefaults` | typed bot configurations, their validation, what serde writes and accepts back |
| `BotMigration`, `BotMigrationTheorems`, `BotMigrationForms`, `BotMigrationSilent`, `BotLegacy`, `BotRoundTrip` | rewriting `bot.json` of any age, and when that goes unrecorded; encode, migrate, decode |
| `BotRepo` | the cached repository under concurrent calls, cut at the await points |
| `DriftDiff`, `DriftTheorems`, `DriftNormalize`, `Render`, `RenderReads`, `DriftAllowed` | rendering backend files that keep the user's fields; comparing them with what is on disk |
| `AppMigration`, `AppMigrationWhole`, `Bootstrap` | the old application configuration; starting over and over |
| `Coordinator` | flipping a shared `package.json` under one mutex per server |
| `Runner`, `RunnerRestore` | deployment plans: skip, optional failure, cancellation, rollback, and which plans a rollback undoes |
| `CopyTree` | a worklist copy over an installation that keeps its data |
| `LogSanitize`, `ConsoleNoise`, `ConsoleNoiseTables` | repairing level tags; dropping console noise |

Code that works step by step is written as methods with loops or as a class with fields, each proved
against a function of its inputs; the theorems are lemmas about those functions.  Concurrent code is a
transition system: `Next` is one step of one call, a run is any interleaving.  Clocks, randomness and
failures are oracles: functions from the number of an operation to its outcome, about which nothing is
assumed.

The main results, in the system's terms:

- **Repository.** In every interleaving of any number of calls, whenever the write lock is free a filled
  cache is what loading `bot.json` would give exactly when each of its bots can be read back
  (`BotRepo.CacheCoherent`).  Every reply tells the truth about one version of the list between the call
  and the reply, acknowledged writes and log entries are one to one, a call sees every write that returned
  before it began, and a call fails exactly for one of three stated reasons (`BotRepo.Linearizable`,
  `BotRepo.CallsSeeReturnedWrites`, `BotRepo.FailedIff`).  This rests on the round trip: a written list loads as itself if and
  only if it is durable (`BotRoundTrip.RoundTripIffDurable`).
- **Store.** Without a fault every write and transaction within the root succeeds; after one fault, at any
  operation, a failed transaction leaves every target as it was, exactly for the transactions that
  satisfy `Store.RollsBack`, a condition on the targets, the initial files and the snapshots an earlier
  transaction left (`Store.RollbackRestoresIff`).  At every instant of one write the old document is
  complete at the path or in a backup until the new one is at the path.
- **Migration.** Both migrations are idempotent, and migrating a bot document changes nothing of what loads
  from it (`BotRoundTrip.MigratedLoadsTheSame`).  For every bot document it is stated what becomes of each
  of its forms (`BotMigrationForms`) and exactly when it is changed without a rule
  (`BotMigrationSilent.DocumentSilentChangeIff`); for every application configuration what becomes of each
  top-level key and each field one level down (`AppMigrationWhole.EveryFieldAfter`,
  `AppMigration.Conservation`, `AppMigration.PlainSectionFate`).
- **Starting.** With a saved report on disk, exactly when a start migrates or initialises again
  (`Bootstrap.MarkedDiskRunsAgainIff`), and what a migrating start leaves in each file.
- **Drift.** The report is clean exactly for alike documents, its entries form an antichain that covers
  every difference once, the positions where empty values may differ are written out
  (`DriftAllowed.AllowedIff`), reordering adapters is not drift, and what was just rendered never is, over
  any files whatever.
- **Coordinator, runner, tree copy, log filters.** Mutual exclusion and conservation over all runs;
  what an outcome and a final event mean; for which plans a rollback restores the start
  (`RunnerRestore.StopRestoresIff`); the stack copy is the pointwise overlay; the scanners are idempotent.

## What the proofs showed about the code

- `validate` accepts an empty bot name, which migration rewrites to `bot-N`: such a bot does not survive
  a reload (`BotRoundTrip.EmptyNameIsLost`).  `BotRepo.UpsertKeepsCoherenceIff` and
  `BotRepo.CacheCoherent` give the exact condition, for one write and for every run.
- Snapshots are keyed by file name only, so two targets with the same name in different directories can
  be restored from each other's content (`Store.SharedNameLosesContent`), and the directory is named by
  the second, so a new file can come back with the content of an older snapshot
  (`Store.DistinctNamesRollBackIff`).
- A flagged step that was skipped because its component was already installed is uninstalled by the
  rollback all the same (`Runner.SkippedFlaggedStepIsLost`).
- `Finished { ok: true }` is sent even when an optional step failed and the outcome is not ok
  (`Runner.FinishedTrueMeansTheEnd`).
- A failed first start saves a report stamped with the current version, so what it failed to migrate is
  never tried again (`Bootstrap.FailedStartMarks`).  A start that cannot read the report, and discovers
  nothing elsewhere, replaces the bots by an empty list (`Bootstrap.UnreadableReportLosesBots`; the old
  file stays among the snapshots).  `Bootstrap.CurrentIffSeen` is the exact condition for a report to
  count.
- Blank client URLs, legacy sections that say nothing, and root fields beside the bots are replaced or
  dropped without a rule (`BotMigrationSilent.DocumentSilentChangeIff`).
- A top-level value of the application configuration that is no object is lost where a step writes a field
  into its place (`AppMigration.PlainSectionFate`).
- Two branches cannot be taken: the `i64` case of `normalize_qqid`, and the separate test for a lone `{`
  in the noise filter.
- The documentation of `render_for_drift` in `crates/ncd-traits/src/backend_config_renderer.rs` says that
  SnowLuma overrides it; the code does not, and the model follows the code.

## Model

| member | source | states |
|---|---|---|
| Store.LocalConfigStore.WriteJsonAtomic | crates/ncd-config/src/store.rs:182-213 | within the root and with no operation failing it succeeds and leaves at most three backups; success puts the payload at the path; failure leaves the path as it was unless the renaming back failed, a second failing operation; at every state in between the path is never torn and the old document is complete at the path or in a backup until the new one is at the path; nothing but the path and its siblings changes |
| Store.LocalConfigStore.WithinRootIff | crates/ncd-config/src/store.rs:43-59 | the paths within the root are the root's directories continued by any names but ".." |
| Store.LocalConfigStore.Stage | crates/ncd-config/src/store.rs:182-199 | staging: the payload is complete beside the path, and the old file, if it moved, is complete in the backup |
| Store.LocalConfigStore.Replace | crates/ncd-config/src/store.rs:200-213 | the staged file takes the path, or the old file comes back from its backup |
| Store.LocalConfigStore.PruneBackups | crates/ncd-config/src/store.rs:325-358 | only backups of the path go, never one newer than one of the kept, and only down to the number to keep |
| Store.LocalConfigStore.ReadJson | crates/ncd-config/src/store.rs:170-180 | which answer means what, both ways but for faults: a path outside the root, the document there, a missing file, text that is not JSON; an I/O error only if an operation failed |
| Store.LocalConfigStore.TakeSnapshots | crates/ncd-config/src/store.rs:85-99 | the snapshot directory holds, per base name, the content of the last existing target of that name, else what it held before; nothing outside it changes |
| Store.LocalConfigStore.Restore | crates/ncd-config/src/store.rs:292-318 | a written file comes back from its snapshot or goes, a deleted one comes back, and nothing else changes, if the undoing operations succeed |
| Store.LocalConfigStore.ApplyTransaction | crates/ncd-config/src/store.rs:215-266 | it succeeds when all targets are within the root and no operation fails; success applies every write and delete and reports exactly the deletes that found a file; failure names the operation `k` that failed and leaves every target as RolledBack says for `k`, hence as before if the transaction satisfies RollsBack, whatever an earlier transaction left among the snapshots, provided the undoing succeeds, which only a second failing operation can prevent; nothing but targets, their siblings and the snapshots changes |
| Store.RollbackRestoresIff | crates/ncd-config/src/store.rs:215-318 | rolling back restores every target at every failing operation if and only if each target that some operation but the last touches starts with what the snapshots hold under its base name: the last existing target of that name, else an older snapshot |
| Store.DistinctNamesRollBackIff | crates/ncd-config/src/store.rs:85-99 | with distinct base names a transaction rolls back unless a new file that some operation but the last touches bears the name of an older snapshot of the same second |
| Store.OneFileRollsBack | crates/ncd-config/src/bot_repo.rs:162-172 | a transaction of one write, as the repository runs it, always rolls back, whatever is among the snapshots |
| Store.SharedNameLosesContent | crates/ncd-config/src/store.rs:94-97 | two files of one name in two directories: the first comes back with the second's content |
| DiskModel.Disk.Write | crates/ncd-config/src/store.rs:192 | a write that fails may leave a torn file, one that succeeds passes through a torn state |
| DiskModel.Disk.Rename | crates/ncd-config/src/store.rs:196 | a rename happens whole or not at all |
| BotConfigModel.Validate | crates/ncd-domain/src/bot_config.rs:450-489 | accepts exactly the valid configurations, and an error names a defect some entry has |
| BotConfigModel.ValidateEndpoints | crates/ncd-domain/src/bot_config.rs:544-560 | the shared map of names finds a clash exactly when two trimmed, lower-cased, non-empty names are equal |
| BotConfigModel.ValidIff | crates/ncd-domain/src/bot_config.rs:450-560 | valid means: a non-zero id, a port for every server, a URL for every client, and no shared non-blank name among all five lists |
| BotRepo.AcceptedIff | crates/ncd-domain/src/bot_config.rs:450-498 | what an upsert accepts, written out: a valid configuration whose local bot runs natively and whose server is neither blank nor spells "remote" |
| BotCodec.DecodeEncodeBot | crates/ncd-domain/src/bot_config.rs:186-447 | what serde writes for a configuration it reads back as that configuration, but for a server id that spells "local" |
| BotCodecDefaults.BasicReads | crates/ncd-domain/src/bot_config.rs:148-214 | a bot section with any set of its fields left out: refused without name or id, else read with the stated defaults |
| BotCodecDefaults.AdvancedReads | crates/ncd-domain/src/bot_config.rs:346-403 | an advanced section with any set of its fields left out reads with the stated defaults |
| BotCodecDefaults.HttpServerReads | crates/ncd-domain/src/bot_config.rs:216-246 | an HTTP server with any fields left out: refused without name, host or port, else read with the stated defaults |
| BotCodecDefaults.WsServerReads | crates/ncd-domain/src/bot_config.rs:280-300 | the same of a WebSocket server |
| BotCodecDefaults.WsClientReads | crates/ncd-domain/src/bot_config.rs:302-319 | a WebSocket client with any fields left out: refused without name or URL, else read with the stated defaults |
| BotMigration.EnsureConnectShape | crates/ncd-config/src/bot_migration.rs:131-176 | the five lists exist, each legacy section is gone and what it says is appended to its list, with the rules in order |
| BotMigration.NormalizeAdvanced | crates/ncd-config/src/bot_migration.rs:178-222 | missing defaults are filled in, one rule each, present values stay |
| BotMigration.NormalizeUrls | crates/ncd-config/src/bot_migration.rs:524-544 | exactly the blank client URLs are replaced |
| BotMigrationForms.UrlsBecome | crates/ncd-config/src/bot_migration.rs:524-544 | in the two client lists every blank URL becomes the fallback, entry by entry, and nothing else of the section changes |
| BotMigration.MigrateBotEntry | crates/ncd-config/src/bot_migration.rs:91-109 | one entry: its three sections rewritten, its rules and warnings |
| BotMigration.MigrateBotConfig | crates/ncd-config/src/bot_migration.rs:21-89 | the loop over the entries computes Migration: every entry rewritten with its place in the list, rules and warnings in order, or the error |
| BotMigrationForms.WrappedMigrates | crates/ncd-config/src/bot_migration.rs:65-74 | a wrapped list becomes a root of exactly info and bots, whose i-th entry is the i-th bot rewritten, or is refused when an element is no object |
| BotMigrationForms.ListMigrates | crates/ncd-config/src/bot_migration.rs:61-64 | a bare list of anything migrates as the same list wrapped, with the one root rule in front |
| BotMigrationForms.SingleMigrates | crates/ncd-config/src/bot_migration.rs:75-80 | a single bot migrates as the list of itself, with its rule in front |
| BotMigrationForms.ErrorsByForm | crates/ncd-config/src/bot_migration.rs:57-89 | each of the four errors is given for exactly one form of document |
| BotMigrationForms.BotSectionBecomes | crates/ncd-config/src/bot_migration.rs:224-303 | every field a bot section ends with: the defaults and when they apply, when the password stays, and that nothing else comes or goes |
| BotMigrationForms.BotRulesSayWhatChanged | crates/ncd-config/src/bot_migration.rs:224-303 | each rule of a bot section is recorded exactly if the field it speaks of changes |
| BotMigrationForms.RulesSayWhere | crates/ncd-config/src/bot_migration.rs:30-50 | the rules of a document are those of its entries, each with the place of its entry |
| BotMigrationForms.AdvancedSectionBecomes | crates/ncd-config/src/bot_migration.rs:178-222 | every default of the advanced section and its bypass, and when it applies |
| BotMigrationForms.LegacyServerIff | crates/ncd-config/src/bot_migration.rs:393-461 | a legacy server section becomes a server exactly if it is enabled, names a host or has a port |
| BotMigrationTheorems.MigrationIdempotent | crates/ncd-config/src/bot_migration.rs:21-109 | with a store that accepts every put, migrating the output returns it unchanged with no rule and no warning, for every payload |
| BotMigrationTheorems.SettledIsFixed | crates/ncd-config/src/bot_migration.rs:91-109 | a document of the current shape is a fixed point whatever the secret store does |
| BotMigrationSilent.ConnectSilentChangeIff | crates/ncd-config/src/bot_migration.rs:131-176 | any connect section changes without a rule if and only if its five lists are there, its legacy sections say nothing, and it has such a section or a blank client URL |
| BotMigrationSilent.EntrySilentChangeIff | crates/ncd-config/src/bot_migration.rs:91-109 | an entry records no rule exactly when it is quiet, and then changes exactly when its connect section does, and nowhere else |
| BotMigrationSilent.DocumentSilentChangeIff | crates/ncd-config/src/bot_migration.rs:21-89 | a whole document is changed with an empty list of rules if and only if it is wrapped, its entries are quiet, and either a root field beside the bots is not the current info or some connect section changes unrecorded |
| BotMigrationSilent.RootKeepsOnlyBots | crates/ncd-config/src/bot_migration.rs:57-89 | of a wrapped root only the bots count: payload, rules and warnings do not depend on any other root field, which is dropped or overwritten |
| BotMigrationTheorems.AdvancedKeepsFields | crates/ncd-config/src/bot_migration.rs:178-222 | everything an advanced section says is kept, but for a bypass that is no object |
| BotMigrationTheorems.ConnectKeepsEntries | crates/ncd-config/src/bot_migration.rs:131-176 | current lists keep their entries in front of the legacy ones, other fields stay |
| BotRoundTrip.RoundTripIffDurable | crates/ncd-config/src/bot_repo.rs:49-92 | encoding, migrating, decoding and validating a list gives it back if and only if its bots are valid with distinct ids, non-empty names and server ids that are neither blank nor spell "local" |
| BotRoundTrip.LoadOfEncoded | crates/ncd-config/src/bot_repo.rs:49-92 | what a written list loads as, for any list whatever |
| BotRoundTrip.LoadedIsDurable | crates/ncd-config/src/bot_repo.rs:57-92 | whatever a file holds, a list that loads from it loses nothing when written back |
| BotRoundTrip.LoadIgnoresSecretStore | crates/ncd-config/src/bot_repo.rs:57-92 | what a file loads as does not depend on which puts the secret store accepts |
| BotRoundTrip.MigratedLoadsTheSame | crates/ncd-config/src/bot_repo.rs:57-92 | replacing any document by its migration does not change what loads from it |
| BotRoundTrip.EmptyNameIsLost | crates/ncd-config/src/bot_migration.rs:224-243 | a valid bot with an empty name does not survive the round trip |
| BotLegacy.LegacyClientsInOrder | crates/ncd-config/src/bot_migration.rs:415-438 | a legacy URL list becomes one client for each place with a non-blank string, in the order of the places |
| BotLegacy.PlacesSpec | crates/ncd-config/src/bot_migration.rs:415-438 | those places are increasing, and are exactly the ones that hold a non-blank string |
| BotLegacy.LegacyHttpClientsRead | crates/ncd-config/src/bot_migration.rs:415-438 | the clients made from post URLs all decode, one per non-blank string in order, with that string trimmed and not blank as URL, and no two share a name |
| BotLegacy.LegacyWebsocketClientsRead | crates/ncd-config/src/bot_migration.rs:463-490 | likewise for the URLs of a reverse WebSocket section |
| BotLegacy.QqidStringIsItsNumber | crates/ncd-config/src/bot_migration.rs:494-520 | a QQID string becomes the number `n` if and only if, trimmed, it is the decimal of `n` after any zeros and perhaps a plus sign, and `n` fits 64 bits |
| BotRepo.UpsertInto | crates/ncd-config/src/bot_repo.rs:154-160 | the loop that finds and replaces, or pushes, computes Upserted |
| BotRepo.UpsertedFind | crates/ncd-config/src/bot_repo.rs:154-160 | after an upsert the id is bound to the new configuration and every other binding is as before |
| BotRepo.Retain | crates/ncd-config/src/bot_repo.rs:183-185 | the retain loop computes Without |
| BotRepo.WithoutFind | crates/ncd-config/src/bot_repo.rs:183-188 | after a delete the id is unbound and every other binding is as before |
| BotRepo.UpsertKeepsCoherenceIff | crates/ncd-config/src/bot_repo.rs:147-178 | after an accepted upsert the file loads as the list in memory if and only if the name is not empty and the server id does not spell "local" |
| BotRepo.CacheCoherent | crates/ncd-config/src/bot_repo.rs:97-211 | in every interleaving, whenever the write lock is free and the cache is filled, loading the file gives the cache, whatever the secret store answers, if and only if every bot in it has a name and no server id that spells "local" |
| BotRepo.FileIsNewest | crates/ncd-config/src/bot_repo.rs:97-211 | whenever the write lock is free the file is the newest version, as it loads or as it was written |
| BotRepo.Linearizable | crates/ncd-config/src/bot_repo.rs:97-211 | the successful writes form a serial history, each doing to its predecessor what it says; each finished call that did not fail has answered the truth about a version not older than the newest one when it was made: the list itself, its length, the first bot of the id or none, whether some bot had the id; each acknowledged write has a place in the log to itself, and every place of the log belongs to such a write |
| BotRepo.WritesDoWhatTheySay | crates/ncd-config/src/bot_repo.rs:147-203 | the first version is what the file first loaded as; every logged upsert replaces the bot of its id in place or adds itself at the end, every logged delete takes out the bot of its id; a filled cache is the newest version |
| BotRepo.FailedIff | crates/ncd-config/src/bot_repo.rs:97-211 | a finished call has failed if and only if it was a refused upsert, the disk failed its load or its write, or the file did not load when the repository was made |
| BotRepo.CallsSeeReturnedWrites | crates/ncd-config/src/bot_repo.rs:97-211 | a call made after a write has returned answers from that write's version or a later one |
| BotRepo.MutualExclusion | crates/ncd-config/src/bot_repo.rs:97-124 | at most one call stands between taking the write lock and dropping it |
| BotRepo.NextKeeps | crates/ncd-config/src/bot_repo.rs:97-211 | every step of every call keeps the invariant |
| DriftDiff.DiffJson | crates/ncd-config/src/drift.rs:117-193 | the two lists it grows hold exactly the topmost conflicts, additions apart from the rest, none twice |
| DriftDiff.DiffObjects | crates/ncd-config/src/drift.rs:127-150 | the object case, whatever the order of the keys |
| DriftDiff.DiffArrays | crates/ncd-config/src/drift.rs:151-181 | the array case, with the tails of both sides |
| DriftTheorems.EntriesFormAntichain | crates/ncd-config/src/drift.rs:117-201 | no entry's path repeats or is a prefix of another's |
| DriftTheorems.ConflictHasOneEntry | crates/ncd-config/src/drift.rs:117-201 | every differing position lies at or below exactly one entry |
| DriftTheorems.EntryCarriesValues | crates/ncd-config/src/drift.rs:117-201 | an entry holds the two sides' values at its path, null standing for absent |
| DriftTheorems.CleanIffAlike | crates/ncd-config/src/drift.rs:117-193 | the report is clean exactly when the documents have the same shape and keys and agree at every leaf but for trivially empty pairs at allow-listed paths |
| DriftTheorems.CleanIffEqual | crates/ncd-config/src/drift.rs:293-307 | for a file no rule matches, clean means equal |
| DriftAllowed.AllowedIff | crates/ncd-config/src/drift.rs:204-335 | in every derived file, at a position of clean keys, two different values pass exactly if both are null or empty and the position is one of those written out as segments |
| DriftAllowed.CleanReportIffSimilar | crates/ncd-config/src/drift.rs:70-115 | files that differ from what is rendered only by empty values at those positions give a clean report, through the sorting of the normal form; with clean keys nothing else does |
| DriftAllowed.EmptyPairIsNotDrift | crates/ncd-config/src/drift.rs:293-335 | one such value replaced by another empty one, anywhere it is allowed, is no drift |
| DriftTheorems.DottedPathsDistinct | crates/ncd-config/src/drift.rs:195-201 | as dotted strings the paths stay distinct when no key is empty or holds a dot |
| DriftTheorems.DottedPathsCanCollide | crates/ncd-config/src/drift.rs:195-201 | with a dot in a key two entries can show the same path |
| DriftNormalize.NormalizeValues | crates/ncd-config/src/drift.rs:338-353 | the method that normalises adapters twice computes the one-rule normal form |
| DriftNormalize.SortNetworkAdapterArrays | crates/ncd-config/src/drift.rs:355-379 | the arrays under network keys are sorted, and the second descent changes nothing |
| DriftNormalize.SortSpec | crates/ncd-config/src/drift.rs:381-386 | the sort is sorted, a permutation, and stable |
| DriftNormalize.NormIdempotent | crates/ncd-config/src/drift.rs:338-394 | normalising twice is normalising once, for every value |
| DriftNormalize.NormByField | crates/ncd-config/src/drift.rs:338-394 | under the ten adapter keys the normal form is the normalised elements in the order of their names, any other list keeps its order |
| DriftNormalize.NormForgetsAdapterOrder | crates/ncd-config/src/drift.rs:338-394 | reordering adapters with distinct names anywhere in a document does not change its normal form |
| DriftNormalize.ReorderingIsNotDrift | crates/ncd-config/src/drift.rs:70-115 | so a report on reordered documents is clean |
| Render.MergeUnknownTopLevel | crates/ncd-deploy/src/backend_config_renderer.rs:20-38 | the loop over the existing keys gives the rendered object with the unknown fields beside it |
| Render.OutputsWellFormed | crates/ncd-deploy/src/backend_config_renderer.rs:164-181 | every render of every configuration is an object whose keys are all known keys, and a bot's files have different names |
| Render.NapcatConnectReads | crates/ncd-deploy/src/backend_config_renderer.rs:41-123 | the network rendered for NapCat, read with Desktop's own decoder, is the connect section but for timeouts and roles |
| RenderReads.SnowlumaReads | crates/ncd-deploy/src/backend_config_renderer.rs:355-507 | the SnowLuma file, field by field: every configured server and client in order with its name, switch, format, token, address, path, role and intervals, or the two default listeners exactly if there is no server; the scalar fields |
| RenderReads.NapcatReads | crates/ncd-deploy/src/backend_config_renderer.rs:41-162 | the two NapCat files: the network reads as the connect section, and every scalar field, with the switches left out when off |
| Render.MergeForgetsEarlierRender | crates/ncd-deploy/src/backend_config_renderer.rs:20-38 | an earlier render of any configuration leaves no trace in a later one |
| Render.LaterRenderWins | crates/ncd-deploy/src/backend_config_renderer.rs:231-255 | rendering two configurations of one backend in turn is rendering the second; in particular rendering again changes nothing |
| Render.DetectDrift | crates/ncd-config/src/drift.rs:70-115 | it ends in an error exactly when a derived file is there but cannot be read or parsed, and names the fault of such a file; otherwise the report holds exactly the entries of the files that exist |
| Render.RenderedIsNotDrift | crates/ncd-deploy/src/backend_config_renderer.rs:509-531 | after rendering over any files the report has no modified entry and its added entries are exactly the existing top-level fields outside the known keys |
| AppMigration.MigrateAppConfig | crates/ncd-config/src/app_migration.rs:89-134 | the loop over versions ends and computes the steps from the source version on, then the sweep and the stamp |
| AppMigration.AlwaysEndsAtV20 | crates/ncd-config/src/app_migration.rs:89-134 | whatever the source version, the result reads as v2.0 |
| AppMigration.Idempotent | crates/ncd-config/src/app_migration.rs:89-134 | a second migration changes nothing and applies no rule |
| AppMigration.Conservation | crates/ncd-config/src/app_migration.rs:300-388 | a top-level key no rule names is in the result, unchanged, exactly if it is not an empty object; a field one level down keeps its value unless it is one of those the rules take away, and none appears but the ones they bring |
| AppMigration.PlainSectionFate | crates/ncd-config/src/app_migration.rs:428-450 | a top-level value that is no object stays as it is if and only if nothing is written into its place: Info always is, General, Home and QFluentWidgets under the stated conditions |
| AppMigrationWhole.EveryFieldAfter | crates/ncd-config/src/app_migration.rs:89-134 | every field one level down in the result of the whole migration, as a function of the configuration given and the version it is taken for |
| AppMigrationWhole.VersionIsReadFrom | crates/ncd-config/src/app_migration.rs:390-426 | which version a configuration is taken for, by what stands in it |
| AppMigrationWhole.V154Records | crates/ncd-config/src/app_migration.rs:300-319 | the v1.5.4 step records exactly the move it makes and the fields it finds to remove, in order |
| AppMigrationWhole.V170Records | crates/ncd-config/src/app_migration.rs:329-346 | the v1.7.0 step records exactly its default and the fields it finds to remove |
| AppMigrationWhole.V1728Records | crates/ncd-config/src/app_migration.rs:348-379 | the v1.7.28 step records exactly the copies and defaults whose places are free |
| AppMigrationWhole.LaterRecords | crates/ncd-config/src/app_migration.rs:321-388 | the v1.6.0 step and the sweep record exactly their move and their removal |
| AppMigration.RunStep | crates/ncd-config/src/app_migration.rs:100-106 | each version step, run with its removal loop and its cleanup loop, is the step the theorems speak of |
| AppMigration.WriteNestedSpec | crates/ncd-config/src/app_migration.rs:428-450 | a refused write changes nothing, an accepted one is readable, at any depth |
| AppMigration.TakeNestedSpec | crates/ncd-config/src/app_migration.rs:475-481 | what is taken is gone, and writing it back restores the payload exactly |
| AppMigration.MoveNestedSpec | crates/ncd-config/src/app_migration.rs:463-473 | a move moves the value or leaves the payload exactly as it was, and when it does which |
| AppMigration.CleanupEmptySections | crates/ncd-config/src/app_migration.rs:483-492 | exactly the empty objects go |
| AppMigration.V154Effect | crates/ncd-config/src/app_migration.rs:300-319 | after the v1.5.4 step every nested field is known: moved, gone, or as before |
| AppMigration.V160Effect | crates/ncd-config/src/app_migration.rs:321-327 | after the v1.6.0 step the window state has moved if its place was free, the rest is as before |
| AppMigration.V170Effect | crates/ncd-config/src/app_migration.rs:329-346 | after the v1.7.0 step the acceptance has its default, the title bar fields are gone, the rest is as before |
| AppMigration.V1728Effect | crates/ncd-config/src/app_migration.rs:348-379 | after the v1.7.28 step theme fields are copied to free places and notice fields have their defaults, present fields are as before |
| AppMigration.SweepEffect | crates/ncd-config/src/app_migration.rs:381-388 | in the end the password is gone and the version stamped, the rest is as before |
| Bootstrap.Orchestrator.PlanSelection | crates/ncd-config/src/migration.rs:139-233 | the transaction grown section by section is the plan, or the run is refused |
| Bootstrap.Orchestrator.Run | crates/ncd-config/src/migration.rs:60-137 | what a run leaves on disk, whether it succeeds, fails or its commit fails |
| Bootstrap.Orchestrator.Bootstrap | crates/ncd-config/src/migration.rs:38-58 | the report is saved after a success and after a failure alike, stamped with the current version |
| Bootstrap.SettingsNeverOverwritten | crates/ncd-config/src/migration.rs:77-85 | over any sequence of starts existing settings are never overwritten |
| Bootstrap.SavedMeansMarked | crates/ncd-config/src/store.rs:268-289 | one saved report marks the disk, even that of a failed start, and the mark stays |
| Bootstrap.CurrentIffSeen | crates/ncd-config/src/store.rs:120-164 | with a saved report on disk a start finds the current version if and only if it can read that report, or an old report that states it, or, when no old report states a version, a bot file that does |
| Bootstrap.MigratedBotsAreWritten | crates/ncd-config/src/migration.rs:214-233 | a start that migrates replaces the bot file by the migration of what it found, from which the same bots load |
| Bootstrap.MigratedAppIsWritten | crates/ncd-config/src/migration.rs:139-189 | and the application configuration by its migration, seeding the settings exactly if there are none |
| Bootstrap.MigratedServersAreWritten | crates/ncd-config/src/migration.rs:165-213 | and the server profiles by those it found, in their own file or else in the application configuration |
| Bootstrap.SeedIsWritten | crates/ncd-config/src/migration.rs:76-122 | a start that finds the current version writes the seed of the application configuration exactly if there are no settings and it has one |
| Bootstrap.MarkedDiskRunsAgainIff | crates/ncd-config/src/migration.rs:60-75 | with a saved report on disk, the exact condition under which a start overwrites the bot file with an empty one, and the one under which it migrates |
| Bootstrap.AtMostOneMore | crates/ncd-config/src/migration.rs:60-122 | once a report is saved, starts that find the current version migrate and initialise nothing, and all of them together commit at most one transaction, the seed |
| Bootstrap.FailedStartMarks | crates/ncd-config/src/migration.rs:44-56 | a first start that fails, before its commit or at it, changes nothing but the report, and later starts that see it do not migrate |
| Bootstrap.UnreadableReportLosesBots | crates/ncd-config/src/migration.rs:124-137 | a start that cannot read the report and discovers nothing replaces a bot file of any list of bots by an empty one, which loads as no bots |
| Coordinator.NextKeeps | crates/ncd-deploy/src/remote_coordinator.rs:24-121 | every step keeps one mutex per server, one holder per mutex, and what each call knows of the file |
| Coordinator.MutualExclusion | crates/ncd-deploy/src/remote_coordinator.rs:24-39 | at most one call per server is in its critical section |
| Coordinator.RunConserves | crates/ncd-component/src/remote_qq_entry.rs:18-46 | over any run a server keeps its mutex and no package file changes but for its main field |
| Coordinator.SuccessMeansTarget | crates/ncd-deploy/src/remote_coordinator.rs:44-121 | a successful call drops the lock with main equal to the entry script of its mode, and for NapCat has found the NapCat files |
| Coordinator.SucceedsIff | crates/ncd-deploy/src/remote_coordinator.rs:44-121 | a finished call succeeded if and only if none of its operations failed, nothing it checks for was missing and the package file holds an object |
| Coordinator.CriticalIsUndisturbed | crates/ncd-component/src/remote_qq_entry.rs:31-45 | what a call has read in its critical section is what it overwrites |
| Runner.Validate | crates/ncd-deploy/src/plan.rs:96-110 | accepts exactly non-empty plans with distinct names |
| Runner.RunSingleStep | crates/ncd-deploy/src/runner.rs:133-176 | a step is done exactly if every call and check it makes goes well; what each kind of step may change, when it is skipped, and which calls it makes |
| Runner.Rollback | crates/ncd-deploy/src/runner.rs:179-201 | it uninstalls the flagged steps' components in reverse order, stopping at the first error |
| Runner.Run | crates/ncd-deploy/src/runner.rs:21-129 | outcomes for a prefix of the plan, none of them failed if every call goes well, cancelled ones exactly where the caller cancels, the paired events and one final event, rollback only after a failure that stops the plan, and what is installed at the end |
| Runner.OkIffAllRan | crates/ncd-deploy/src/result.rs:83-93 | the outcome is ok exactly when every step of the plan was run and none failed |
| Runner.FinishedTrueMeansTheEnd | crates/ncd-deploy/src/runner.rs:121-129 | the final event is true exactly when the loop reached the end, and then the outcome is not ok exactly when an optional step failed |
| Runner.UndoneStep | crates/ncd-deploy/src/runner.rs:65-119 | the k-th component undone is that of a finished flagged step with exactly k such steps after it, never of the failing one |
| Runner.FlaggedUndone | crates/ncd-deploy/src/runner.rs:65-119 | every finished flagged step is undone |
| Runner.RealInstallsRestore | crates/ncd-deploy/src/runner.rs:179-201 | the initial set is restored when every finished step was a flagged real install and a failed one left nothing |
| RunnerRestore.StopRestoresIff | crates/ncd-deploy/src/runner.rs:21-201 | a condition on the plan, the initial set and the stopping step alone: every run that stops there, with failed calls that leave nothing behind and a rollback that succeeds, ends with the initial set, if and only if no earlier step is flagged for or lastingly uninstalls a component of that set and every new component is flagged or surely uninstalled |
| Runner.SkippedFlaggedStepIsLost | crates/ncd-deploy/src/runner.rs:133-151 | a flagged step skipped because its component was there loses that component |
| CopyTree.CopyTree | crates/ncd-component/src/snowluma.rs:799-831 | the stack loop ends, also when the source is staged inside the destination; on success every path holds what the pointwise overlay says, on failure only copied positions differ, and without faults or clashes it succeeds |
| CopyTree.CopyExtractedIntoInstall | crates/ncd-component/src/snowluma.rs:735-742 | over the installation directory, whether it succeeds or stops half way: existing config and data directories keep all they hold and only copied positions differ; on success the overlay, and success without faults or obstacles |
| CopyTree.PreservedIsKept | crates/ncd-component/src/snowluma.rs:811-818 | the overlay leaves everything below a preserved directory unchanged |
| CopyTree.OverlayTwice | crates/ncd-component/src/snowluma.rs:799-831 | copying the same tree again changes nothing |
| LogSanitize.TryParseOrphanLevelTag | crates/ncd-deploy/src/napcat_log_sanitize.rs:65-116 | the index-driven scanner parses exactly the tags |
| LogSanitize.RepairOrphanTags | crates/ncd-deploy/src/napcat_log_sanitize.rs:35-61 | the scanner computes the leftmost-first rewriting |
| LogSanitize.SpelledParses | crates/ncd-deploy/src/napcat_log_sanitize.rs:63-116 | every text beginning with a tag of the grammar parses, with its length and level |
| LogSanitize.ParsedIsSpelled | crates/ncd-deploy/src/napcat_log_sanitize.rs:63-116 | whatever parses begins with such a tag |
| LogSanitize.LevelOfIff | crates/ncd-deploy/src/napcat_log_sanitize.rs:86-96 | the words that name a level: the seven levels and warning, in lower or in upper case |
| LogSanitize.RepairLeavesNoTag | crates/ncd-deploy/src/napcat_log_sanitize.rs:35-61 | no tag can be parsed anywhere in the output |
| LogSanitize.RepairFixedIff | crates/ncd-deploy/src/napcat_log_sanitize.rs:35-61 | a text is left alone exactly when it holds no tag |
| LogSanitize.RepairIdempotent | crates/ncd-deploy/src/napcat_log_sanitize.rs:35-61 | repairing twice is repairing once, on every string |
| ConsoleNoise.QqConsoleNoiseFilter.IsNoise | crates/ncd-deploy/src/qq_console_noise.rs:29-79 | the fields and the answer follow the automaton |
| ConsoleNoise.KeptMeansFresh | crates/ncd-deploy/src/qq_console_noise.rs:29-79 | a filter that keeps a line is as good as new, and a new filter keeps that line |
| ConsoleNoise.StepBalanced | crates/ncd-deploy/src/qq_console_noise.rs:29-41 | the depth never becomes negative |
| ConsoleNoise.NoiseIsDropped | crates/ncd-deploy/src/qq_console_noise.rs:51-64 | a line that is noise by itself is dropped in every state |
| ConsoleNoiseTables.FreshKeepsIff | crates/ncd-deploy/src/qq_console_noise.rs:29-117 | a fresh filter keeps exactly the blank lines and those that no table of texts has: what a line contains, begins with, is, or counts |
| ConsoleNoiseTables.FreshOpensIff | crates/ncd-deploy/src/qq_console_noise.rs:51-79 | when a dropped line opens a body to be swallowed and how deep, and when a stack trace |
| ConsoleNoiseTables.NoiseLineIff | crates/ncd-deploy/src/qq_console_noise.rs:81-338 | a trimmed line is noise by itself exactly if one of the tables, written out, has it |
| ConsoleNoise.BodyIsSwallowed | crates/ncd-deploy/src/qq_console_noise.rs:35-41 | nothing inside an open JSON body is kept |
| ConsoleNoise.StackIsSwallowed | crates/ncd-deploy/src/qq_console_noise.rs:43-48 | after a header all stack frames and blank lines go |
| ConsoleNoise.FilterIdempotent | crates/ncd-deploy/src/qq_console_noise.rs:20-79 | a fresh filter keeps every line another fresh one kept |
| ConsoleNoise.CountBraces | crates/ncd-deploy/src/qq_console_noise.rs:119-129 | the loop counts opening minus closing braces |
| ConsoleNoise.LooksLikeBuglyNumberedLine | crates/ncd-deploy/src/qq_console_noise.rs:340-362 | the scanner accepts exactly two comma-terminated numbers in front |

## Left out

- Maps that the source mutates through references (`&mut Map`) are values here: a function or method returns the new map; aliasing inside one JSON tree is not captured.
- Bodies that only build a JSON map by inserts (the NapCat helpers, the typed encoders, the two version steps of the application migration without a loop) are functions, without their local mutable map.
- Directories other than as prefixes of paths, symbolic links and `canonicalize`: the store's root check is the prefix test and the refusal of `..`.
- `prune_migration_backups`, which removes old snapshot directories.
- Which I/O or serialisation error is reported; the model keeps the kinds the callers tell apart.
- BotRepo.CacheCoherent: assumes that a failed transaction has put `bot.json` back, that nobody else writes the file, and that `invalidate_cache` is not called; cancelled futures and panicking blocking tasks are not modelled.
- Store.LocalConfigStore.ApplyTransaction: the rollback guarantee assumes targets that are not one another's siblings nor among the snapshots, and undoing operations that succeed, that is, no second fault; a crash in the middle of a transaction over several files is not recovered by the code and not claimed.
- Bootstrap.Orchestrator.Run: the contents of the seeded settings, server profiles and runtime summaries are parameters.
- CopyTree.CopyTree: requires an existing destination, as its caller creates it, that does not lie inside the source, and of a source staged inside the destination that it does not hold its own place there; file contents are opaque.
- RunnerRestore.StopRestoresIff: speaks of stops whose failed calls leave nothing installed or removed; what any recorded run leaves is `Runner.RestoredIff`.
- Runner.RunSingleStep: what an update installs is taken to be its component; durations and error texts are not modelled.
- Coordinator.SuccessMeansTarget: assumes distinct server ids stand for distinct hosts, whole or failed writes, and no writer outside the coordinator.
- Decoding a JSON array as a struct, which serde also accepts, and unknown fields that only other versions write.
- Float formatting and `to_lowercase` are parameters; UTF-8 byte offsets are positions in a sequence of characters; 32-bit overflow of the brace counter, which takes a line of two billion braces, is not modelled.
- `strip_ansi_escapes`, the QR-code block filter and the combined NapCat filter, whose second pass may drop a line the first kept.
- Downloads, SSH, package managers, the secret store's cryptography, and the user interface.
