/**
 Bringing the old application configuration to its last version: four steps that move, default
 and remove fields two levels deep, a loop over versions, and a final sweep.
 */
module AppMigration {
  import opened Common
  import opened JsonModel

  type Fields = map<string, Json>

  type FieldPath = p: seq<string> | p != [] witness [""]

  // ---------------------------------------------------------------- nested fields

  /** `nested`. */
  function Nested(m: Fields, path: FieldPath): Option<Json>
    decreases |path|
  {
    if path[0] !in m then None
    else if |path| == 1 then Some(m[path[0]])
    else if m[path[0]].Obj? then Nested(m[path[0]].fields, path[1..]) else None
  }

  function ObjectAt(m: Fields, key: string): Fields {
    if key in m && m[key].Obj? then m[key].fields else map[]
  }

  /** `write_nested`: what is not an object on the way is replaced by one. */
  function WriteNested(m: Fields, path: FieldPath, value: Json, overwrite: bool): (Fields, bool)
    decreases |path|
  {
    if |path| == 1 then
      if !overwrite && path[0] in m then (m, false) else (m[path[0] := value], true)
    else
      var (inner, written) := WriteNested(ObjectAt(m, path[0]), path[1..], value, overwrite);
      (m[path[0] := Obj(inner)], written)
  }

  /** `take_nested`. */
  function TakeNested(m: Fields, path: FieldPath): (Fields, Option<Json>)
    decreases |path|
  {
    if path[0] !in m then (m, None)
    else if |path| == 1 then (m - {path[0]}, Some(m[path[0]]))
    else if !m[path[0]].Obj? then (m, None)
    else
      var (inner, taken) := TakeNested(m[path[0]].fields, path[1..]);
      (m[path[0] := Obj(inner)], taken)
  }

  /** `remove_nested`. */
  function RemoveNested(m: Fields, path: FieldPath): (Fields, bool) {
    var (m', taken) := TakeNested(m, path);
    (m', taken.Some?)
  }

  /** `move_nested`: a value that finds its target taken is put back. */
  function MoveNested(m: Fields, source: FieldPath, target: FieldPath): (Fields, bool) {
    var (taken, value) := TakeNested(m, source);
    if value.None? then (taken, false)
    else
      var (written, ok) := WriteNested(taken, target, value.value, false);
      if ok then (written, true) else (WriteNested(written, source, value.value, false).0, false)
  }

  /** `cleanup_empty_sections`. */
  function Cleanup(m: Fields): Fields {
    map k | k in m && m[k] != Obj(map[]) :: m[k]
  }

  method CleanupEmptySections(m: Fields) returns (r: Fields)
    ensures r == Cleanup(m)
  {
    var empty := set k | k in m && m[k].Obj? && m[k].fields == map[];
    r := m;
    while empty != {}
      invariant empty <= r.Keys <= m.Keys && forall k | k in empty :: m[k] == Obj(map[])
      invariant forall k | k in m :: if k in r then r[k] == m[k] && (m[k] == Obj(map[]) ==> k in empty) else m[k] == Obj(map[])
    {
      var key :| key in empty;
      r, empty := r - {key}, empty - {key};
    }
  }

  /** A write that is refused changes nothing; one that is made is readable. */
  lemma {:induction false} WriteNestedSpec(m: Fields, path: FieldPath, value: Json, overwrite: bool)
    ensures var (m', ok) := WriteNested(m, path, value, overwrite);
      && (!ok ==> m' == m && !overwrite && Nested(m, path).Some?)
      && (ok ==> Nested(m', path) == Some(value) && (!overwrite ==> Nested(m, path).None?))
    decreases |path|
  {
    if |path| > 1 {
      var inner := ObjectAt(m, path[0]);
      WriteNestedSpec(inner, path[1..], value, overwrite);
      if !WriteNested(inner, path[1..], value, overwrite).1 {
        assert m[path[0] := m[path[0]]] == m;
      }
    }
  }

  /** Taking a value out leaves none there, and writing it back restores the payload exactly. */
  lemma {:induction false} TakeNestedSpec(m: Fields, path: FieldPath)
    ensures var (m', taken) := TakeNested(m, path);
      && taken == Nested(m, path) && Nested(m', path).None?
      && (taken.None? ==> m' == m)
      && (taken.Some? ==> WriteNested(m', path, taken.value, false) == (m, true))
    decreases |path|
  {
    if path[0] !in m {
    } else if |path| == 1 {
      assert (m - {path[0]})[path[0] := m[path[0]]] == m;
    } else if m[path[0]].Obj? {
      TakeNestedSpec(m[path[0]].fields, path[1..]);
      var (inner, taken) := TakeNested(m[path[0]].fields, path[1..]);
      assert m[path[0] := Obj(inner)][path[0] := m[path[0]]] == m;
      assert m[path[0] := m[path[0]]] == m;
    }
  }

  lemma {:induction false} WriteElsewhere(m: Fields, path: FieldPath, value: Json, other: FieldPath)
    requires !(other <= path) && Nested(m, other).None?
    ensures Nested(WriteNested(m, path, value, false).0, other).None? || path <= other
    decreases |path|
  {
    if |path| > 1 && path[0] == other[0] {
      assert other <= path <== |other| == 1;
      assert other[1..] <= path[1..] ==> other <= path;
      assert path[1..] <= other[1..] ==> path <= other;
      WriteElsewhere(ObjectAt(m, path[0]), path[1..], value, other[1..]);
    }
  }

  /** A move either moves the value or leaves the payload exactly as it was. */
  lemma MoveNestedSpec(m: Fields, source: FieldPath, target: FieldPath)
    requires !(source <= target) && !(target <= source)
    ensures var (m', moved) := MoveNested(m, source, target);
      && (moved <==> Nested(m, source).Some? && Nested(TakeNested(m, source).0, target).None?)
      && (moved ==> Nested(m', target) == Nested(m, source) && Nested(m', source).None?)
      && (!moved ==> m' == m)
  {
    TakeNestedSpec(m, source);
    var (taken, value) := TakeNested(m, source);
    if value.Some? {
      WriteNestedSpec(taken, target, value.value, false);
      WriteElsewhere(taken, target, value.value, source);
    }
  }

  // ---------------------------------------------------------------- the steps

  datatype Change = Moved(source: FieldPath, target: FieldPath) | Removed(path: FieldPath) | Defaulted(path: FieldPath)

  datatype Rule = Applied(source: string, target: string, change: Change) | NoOp(source: string, target: string)
                | Transient(change: Change)

  const V154: string := "v1.5.4"
  const V160: string := "v1.6.0"
  const V170: string := "v1.7.0"
  const V1728: string := "v1.7.28"
  const V20: string := "v2.0"

  const CONFIG_VERSION: FieldPath := ["Info", "ConfigVersion"]
  const SCHEMA_VERSION: FieldPath := ["Info", "ConfigSchemaVersion"]
  const EULA_ACCEPTED: FieldPath := ["Info", "EulaAccepted"]
  const OLD_MAIN_WINDOW: FieldPath := ["Info", "main_window"]
  const MAIN_WINDOW: FieldPath := ["Info", "MainWindow"]
  const OLD_CLOSE_ACTION: FieldPath := ["Personalized", "CloseBtnAction"]
  const CLOSE_ACTION: FieldPath := ["General", "CloseBtnAction"]
  const GO_BUTTON_TIPS: FieldPath := ["HideTips", "HideUsingGoBtnTips"]
  const OLD_THEME_MODE: FieldPath := ["Personalize", "ThemeMode"]
  const THEME_MODE: FieldPath := ["QFluentWidgets", "ThemeMode"]
  const OLD_THEME_COLOR: FieldPath := ["Personalize", "ThemeColor"]
  const THEME_COLOR: FieldPath := ["QFluentWidgets", "ThemeColor"]
  const IGNORED_NOTICES: FieldPath := ["Home", "IgnoredNoticeKeys"]
  const SNOOZED_NOTICES: FieldPath := ["Home", "SnoozedNoticeItems"]
  const REMOTE_PASSWORD: FieldPath := ["Remote", "Password"]
  const PERSONALIZE: string := "Personalize"

  const BACKGROUND_KEYS: seq<string> := [
    "BgHomePage", "BgHomePageOpacity", "BgHomePageLight", "BgHomePageDark", "BgAddPage", "BgAddPageOpacity",
    "BgAddPageLight", "BgAddPageDark", "BgListPage", "BgListPageOpacity", "BgListPageLight", "BgListPageDark",
    "BgUnitPage", "BgUnitPageOpacity", "BgUnitPageLight", "BgUnitPageDark", "BgSettingPage", "BgSettingPageOpacity",
    "BgSettingPageLight", "BgSettingPageDark"]

  const TITLE_TAB_BAR_KEYS: seq<string> := [
    "TitleTabBar", "TitleTabBarIsMovable", "TitleTabBarIsScrollable", "TitleTabBarIsShadow", "TitleTabBarCloseButton",
    "TitleTabBarMinWidth", "TitleTabBarMaxWidth"]

  /** A payload on its way, with the changes made so far. */
  datatype Stage = Stage(fields: Fields, changes: seq<Change>) {
    function Move(source: FieldPath, target: FieldPath): Stage {
      var (m, moved) := MoveNested(fields, source, target);
      Stage(m, changes + if moved then [Moved(source, target)] else [])
    }

    function Remove(path: FieldPath): Stage {
      var (m, removed) := RemoveNested(fields, path);
      Stage(m, changes + if removed then [Removed(path)] else [])
    }

    /** Removing several fields of one section, in order. */
    function RemoveAll(section: string, keys: seq<string>): Stage
      decreases |keys|
    {
      if keys == [] then this else RemoveAll(section, keys[..|keys| - 1]).Remove([section, keys[|keys| - 1]])
    }

    function Default(path: FieldPath, value: Json): Stage {
      var (m, written) := WriteNested(fields, path, value, false);
      Stage(m, changes + if written then [Defaulted(path)] else [])
    }

    /** Copying a field to another place, unless there is one already. */
    function Copy(source: FieldPath, target: FieldPath): Stage {
      match Nested(fields, source)
      case None => this
      case Some(value) =>
        var (m, written) := WriteNested(fields, target, value, false);
        Stage(m, changes + if written then [Moved(source, target)] else [])
    }

    function Clean(): Stage {
      Stage(Cleanup(fields), changes)
    }
  }

  method RemoveKeys(stage: Stage, section: string, keys: seq<string>) returns (r: Stage)
    ensures r == stage.RemoveAll(section, keys)
  {
    r := stage;
    for i := 0 to |keys|
      invariant r == stage.RemoveAll(section, keys[..i])
    {
      r := r.Remove([section, keys[i]]);
      assert keys[..i + 1][..i] == keys[..i];
    }
    assert keys[..|keys|] == keys;
  }

  function MigrateV154(m: Fields): Stage {
    Stage(m, []).Move(OLD_CLOSE_ACTION, CLOSE_ACTION).RemoveAll(PERSONALIZE, BACKGROUND_KEYS).Remove(GO_BUTTON_TIPS).Clean()
  }

  function MigrateV160(m: Fields): Stage {
    Stage(m, []).Move(OLD_MAIN_WINDOW, MAIN_WINDOW)
  }

  function MigrateV170(m: Fields): Stage {
    Stage(m, []).Default(EULA_ACCEPTED, Bool(false)).RemoveAll(PERSONALIZE, TITLE_TAB_BAR_KEYS).Clean()
  }

  function MigrateV1728(m: Fields): Stage {
    Stage(m, []).Copy(OLD_THEME_MODE, THEME_MODE).Copy(OLD_THEME_COLOR, THEME_COLOR)
                .Default(IGNORED_NOTICES, Str("[]")).Default(SNOOZED_NOTICES, Str("{}"))
  }

  /** `remove_transient_config_fields`. */
  function Sweep(m: Fields): Stage {
    Stage(m, []).Remove(REMOTE_PASSWORD).Clean()
  }

  predicate AnyNested(m: Fields, section: string, keys: seq<string>) {
    exists key | key in keys :: Nested(m, [section, key]).Some?
  }

  /** `read_config_version`. */
  function ReadConfigVersion(m: Fields): string {
    var version := Nested(m, CONFIG_VERSION);
    if version.Some? && version.value.Str? && !Blank(version.value.s) then Trim(version.value.s)
    else if Nested(m, SCHEMA_VERSION).Some? then V20
    else if AnyNested(m, PERSONALIZE, BACKGROUND_KEYS) || Nested(m, GO_BUTTON_TIPS).Some? then V154
    else if Nested(m, OLD_MAIN_WINDOW).Some? then V160
    else if AnyNested(m, PERSONALIZE, TITLE_TAB_BAR_KEYS) || Nested(m, EULA_ACCEPTED).None? then V170
    else V1728
  }

  /** How far a version is from the last one; an unknown version goes nowhere. */
  function Distance(version: string): nat {
    if version == V154 then 4 else if version == V160 then 3 else if version == V170 then 2
    else if version == V1728 then 1 else 0
  }

  function Step(version: string, m: Fields): (string, Stage)
    requires Distance(version) > 0
  {
    if version == V154 then (V160, MigrateV154(m))
    else if version == V160 then (V170, MigrateV160(m))
    else if version == V170 then (V1728, MigrateV170(m))
    else (V20, MigrateV1728(m))
  }

  lemma StepIsCloser(version: string, m: Fields)
    requires Distance(version) > 0
    ensures Distance(Step(version, m).0) == Distance(version) - 1
  {
    hide MigrateV154, MigrateV160, MigrateV170, MigrateV1728;
  }

  function Tagged(source: string, target: string, changes: seq<Change>): seq<Rule> {
    if changes == [] then [NoOp(source, target)]
    else seq(|changes|, i requires 0 <= i < |changes| => Applied(source, target, changes[i]))
  }

  /** All the steps from a version on. */
  function Upgrade(version: string, m: Fields): (Fields, seq<Rule>)
    decreases Distance(version)
  {
    if Distance(version) == 0 then (m, [])
    else
      var (next, stage) := Step(version, m);
      StepIsCloser(version, m);
      var (last, rules) := Upgrade(next, stage.fields);
      (last, Tagged(version, next, stage.changes) + rules)
  }

  lemma UpgradeStep(version: string, m: Fields, rules: seq<Rule>)
    requires Distance(version) > 0
    ensures var (next, stage) := Step(version, m);
      Upgrade(version, m).0 == Upgrade(next, stage.fields).0
      && rules + Upgrade(version, m).1 == rules + Tagged(version, next, stage.changes) + Upgrade(next, stage.fields).1
  {
    hide Step, Tagged, Distance;
  }

  lemma UpgradeEnds(version: string, m: Fields)
    requires version == V20 || Distance(version) == 0
    ensures Upgrade(version, m) == (m, [])
  {
    hide Step;
  }

  /** `migrate_v154_to_v160`. */
  method RunV154(m: Fields) returns (r: Stage)
    ensures r == MigrateV154(m)
  {
    hide Stage.Move, Stage.Remove, Stage.RemoveAll, Cleanup;
    r := Stage(m, []).Move(OLD_CLOSE_ACTION, CLOSE_ACTION);
    r := RemoveKeys(r, PERSONALIZE, BACKGROUND_KEYS);
    r := r.Remove(GO_BUTTON_TIPS);
    var cleaned := CleanupEmptySections(r.fields);
    r := Stage(cleaned, r.changes);
  }

  /** `migrate_v170_to_v1728`. */
  method RunV170(m: Fields) returns (r: Stage)
    ensures r == MigrateV170(m)
  {
    hide Stage.Default, Stage.RemoveAll, Cleanup;
    r := Stage(m, []).Default(EULA_ACCEPTED, Bool(false));
    r := RemoveKeys(r, PERSONALIZE, TITLE_TAB_BAR_KEYS);
    var cleaned := CleanupEmptySections(r.fields);
    r := Stage(cleaned, r.changes);
  }

  /** The `match` on the current version. */
  method RunStep(version: string, m: Fields) returns (next: string, stage: Stage)
    requires Distance(version) > 0
    ensures (next, stage) == Step(version, m)
  {
    hide MigrateV154, MigrateV160, MigrateV170, MigrateV1728;
    if version == V154 {
      next := V160;
      stage := RunV154(m);
    } else if version == V160 {
      return V170, MigrateV160(m);
    } else if version == V170 {
      next := V1728;
      stage := RunV170(m);
    } else {
      return V20, MigrateV1728(m);
    }
  }

  method RunSweep(m: Fields) returns (r: Stage)
    ensures r == Sweep(m)
  {
    hide Stage.Remove, Cleanup;
    r := Stage(m, []).Remove(REMOTE_PASSWORD);
    var cleaned := CleanupEmptySections(r.fields);
    r := Stage(cleaned, r.changes);
  }

  function SweepRules(m: Fields): seq<Rule> {
    var changes := Sweep(m).changes;
    seq(|changes|, i requires 0 <= i < |changes| => Transient(changes[i]))
  }

  datatype AppMigrated = AppMigrated(payload: Json, sourceVersion: string, rules: seq<Rule>)

  function RootOf(payload: Json): Fields {
    if payload.Obj? then payload.fields else map[]
  }

  /** What `migrate_app_config` returns. */
  function Migrated(payload: Json): AppMigrated {
    var root := RootOf(payload);
    var source := ReadConfigVersion(root);
    var (upgraded, rules) := Upgrade(source, root);
    AppMigrated(Obj(WriteNested(Sweep(upgraded).fields, CONFIG_VERSION, Str(V20), true).0), source,
                rules + SweepRules(upgraded))
  }

  /** `migrate_app_config`: the loop over versions never sees one twice. */
  method MigrateAppConfig(payload: Json) returns (r: AppMigrated)
    ensures r == Migrated(payload)
  {
    hide Step, Sweep, SweepRules, ReadConfigVersion, Upgrade, Tagged, Distance;
    var fields := RootOf(payload);
    ghost var root := fields;
    var sourceVersion := ReadConfigVersion(fields);
    var current, visited: seq<string>, rules: seq<Rule> := sourceVersion, [], [];
    assert [] + Upgrade(current, fields).1 == Upgrade(current, fields).1;
    while current != V20 && current !in visited
      invariant forall v | v in visited :: Distance(v) > Distance(current)
      invariant Upgrade(sourceVersion, root).0 == Upgrade(current, fields).0
      invariant Upgrade(sourceVersion, root).1 == rules + Upgrade(current, fields).1
      decreases Distance(current)
    {
      visited := visited + [current];
      if Distance(current) == 0 {
        break;
      }
      var next, stage := RunStep(current, fields);
      StepIsCloser(current, fields);
      UpgradeStep(current, fields, rules);
      rules := rules + Tagged(current, next, stage.changes);
      current, fields := next, stage.fields;
    }
    UpgradeEnds(current, fields);
    assert rules + [] == rules;
    rules := rules + SweepRules(fields);
    var swept := RunSweep(fields);
    fields := WriteNested(swept.fields, CONFIG_VERSION, Str(V20), true).0;
    return AppMigrated(Obj(fields), sourceVersion, rules);
  }

  // ---------------------------------------------------------------- it ends at v2.0, once and for all

  lemma TrimmedV20()
    ensures Trim(V20) == V20 && !Blank(V20)
  {
    assert TrimStart(V20) == V20 && TrimEnd(V20) == V20;
  }

  /** Whatever version a payload came from, the result says v2.0. */
  lemma AlwaysEndsAtV20(payload: Json)
    ensures Migrated(payload).payload.Obj? && ReadConfigVersion(Migrated(payload).payload.fields) == V20
  {
    hide Upgrade, Sweep, SweepRules, AnyNested;
    TrimmedV20();
    var root := RootOf(payload);
    WriteNestedSpec(Sweep(Upgrade(ReadConfigVersion(root), root).0).fields, CONFIG_VERSION, Str(V20), true);
  }

  /** A payload the final sweep and stamp leave alone. */
  ghost predicate Swept(m: Fields) {
    && (forall k | k in m :: m[k] != Obj(map[])) && Nested(m, REMOTE_PASSWORD).None?
    && Nested(m, CONFIG_VERSION) == Some(Str(V20))
  }

  lemma CleanupOfClean(m: Fields)
    requires forall k | k in m :: m[k] != Obj(map[])
    ensures Cleanup(m) == m
  {
  }

  lemma SweepOfSwept(m: Fields)
    requires Swept(m)
    ensures Sweep(m) == Stage(m, []) && WriteNested(m, CONFIG_VERSION, Str(V20), true).0 == m
  {
    TakeNestedSpec(m, REMOTE_PASSWORD);
    CleanupOfClean(m);
    RewriteSame(m, CONFIG_VERSION, Str(V20));
  }

  lemma {:induction false} RewriteSame(m: Fields, path: FieldPath, value: Json)
    requires Nested(m, path) == Some(value)
    ensures WriteNested(m, path, value, true).0 == m
    decreases |path|
  {
    if |path| == 1 {
      assert m[path[0] := value] == m;
    } else {
      RewriteSame(m[path[0]].fields, path[1..], value);
      assert m[path[0] := m[path[0]]] == m;
    }
  }

  lemma SweepThenStamp(m: Fields)
    ensures Swept(WriteNested(Sweep(m).fields, CONFIG_VERSION, Str(V20), true).0)
  {
    TakeNestedSpec(m, REMOTE_PASSWORD);
    var s := Cleanup(TakeNested(m, REMOTE_PASSWORD).0);
    assert Sweep(m).fields == s;
    assert Nested(s, REMOTE_PASSWORD).None?;
    WriteNestedSpec(s, CONFIG_VERSION, Str(V20), true);
    StampKeepsPassword(s);
  }

  lemma StampKeepsPassword(s: Fields)
    requires Nested(s, REMOTE_PASSWORD).None?
    ensures Nested(WriteNested(s, CONFIG_VERSION, Str(V20), true).0, REMOTE_PASSWORD).None?
    ensures (forall k | k in s :: s[k] != Obj(map[])) ==>
      forall k | k in WriteNested(s, CONFIG_VERSION, Str(V20), true).0 ::
        WriteNested(s, CONFIG_VERSION, Str(V20), true).0[k] != Obj(map[])
  {
    assert CONFIG_VERSION[0] != REMOTE_PASSWORD[0];
    WriteNestedSpec(s, CONFIG_VERSION, Str(V20), true);
    var w := WriteNested(s, CONFIG_VERSION, Str(V20), true).0;
    assert w == s[CONFIG_VERSION[0] := w[CONFIG_VERSION[0]]];
  }

  /** Migrating a second time changes nothing and applies no rule. */
  lemma Idempotent(payload: Json)
    ensures var once := Migrated(payload).payload;
      Migrated(once) == AppMigrated(once, V20, [])
  {
    hide Upgrade, Sweep, AnyNested, ReadConfigVersion;
    AlwaysEndsAtV20(payload);
    var root := RootOf(payload);
    SweepThenStamp(Upgrade(ReadConfigVersion(root), root).0);
    var once := Migrated(payload).payload.fields;
    UpgradeEnds(V20, once);
    SweepOfSwept(once);
  }

  // ---------------------------------------------------------------- what the steps do

  lemma {:induction false} WriteSame(m: Fields, path: FieldPath, value: Json, overwrite: bool, q: FieldPath)
    requires |q| == |path| && q != path
    ensures Nested(WriteNested(m, path, value, overwrite).0, q) == Nested(m, q)
    decreases |path|
  {
    if |path| > 1 && q[0] == path[0] {
      assert q[1..] == path[1..] ==> q == path;
      WriteSame(ObjectAt(m, path[0]), path[1..], value, overwrite, q[1..]);
    }
  }

  lemma {:induction false} TakeSame(m: Fields, path: FieldPath, q: FieldPath)
    requires |q| == |path| && q != path
    ensures Nested(TakeNested(m, path).0, q) == Nested(m, q)
    decreases |path|
  {
    if |path| > 1 && q[0] == path[0] && path[0] in m && m[path[0]].Obj? {
      assert q[1..] == path[1..] ==> q == path;
      TakeSame(m[path[0]].fields, path[1..], q[1..]);
    }
  }

  lemma CleanSame(m: Fields, q: FieldPath)
    requires |q| > 1
    ensures Nested(Cleanup(m), q) == Nested(m, q)
  {
  }

  lemma RemoveEffect(stage: Stage, path: FieldPath, q: FieldPath)
    requires |q| == |path|
    ensures Nested(stage.Remove(path).fields, path).None?
    ensures q != path ==> Nested(stage.Remove(path).fields, q) == Nested(stage.fields, q)
  {
    hide Nested;
    TakeNestedSpec(stage.fields, path);
    if q != path {
      TakeSame(stage.fields, path, q);
    }
  }

  /** Removing several fields of a section: they are gone, the others are as before. */
  lemma {:induction false} RemoveAllEffect(stage: Stage, section: string, keys: seq<string>, q: FieldPath)
    requires |q| == 2
    ensures var r := stage.RemoveAll(section, keys).fields;
      Nested(r, q) == if q[0] == section && q[1] in keys then None else Nested(stage.fields, q)
    decreases |keys|
  {
    hide Nested;
    if keys != [] {
      var n := |keys| - 1;
      var path: FieldPath := [section, keys[n]];
      RemoveAllEffect(stage, section, keys[..n], q);
      RemoveEffect(stage.RemoveAll(section, keys[..n]), path, q);
      assert q[0] == section && q[1] == keys[n] ==> q == path;
      assert q[1] in keys <==> q[1] in keys[..n] || q[1] == keys[n];
    }
  }

  lemma DefaultEffect(stage: Stage, path: FieldPath, value: Json, q: FieldPath)
    requires |q| == |path|
    ensures Nested(stage.Default(path, value).fields, q)
      == if q == path && Nested(stage.fields, path).None? then Some(value) else Nested(stage.fields, q)
  {
    hide Nested;
    WriteNestedSpec(stage.fields, path, value, false);
    if q != path {
      WriteSame(stage.fields, path, value, false, q);
    }
  }

  lemma CopyEffect(stage: Stage, source: FieldPath, target: FieldPath, q: FieldPath)
    requires |q| == |target|
    ensures Nested(stage.Copy(source, target).fields, q)
      == if q == target && Nested(stage.fields, target).None? then Nested(stage.fields, source) else Nested(stage.fields, q)
  {
    hide Nested;
    if Nested(stage.fields, source).Some? {
      var value := Nested(stage.fields, source).value;
      WriteNestedSpec(stage.fields, target, value, false);
      if q != target {
        WriteSame(stage.fields, target, value, false, q);
      }
    }
  }

  lemma MoveEffect(stage: Stage, source: FieldPath, target: FieldPath, q: FieldPath)
    requires |source| == 2 && |target| == 2 && |q| == 2 && source != target
    ensures var free := Nested(stage.fields, target).None?;
      Nested(stage.Move(source, target).fields, q)
      == if q == source && free then None
         else if q == target && free then Nested(stage.fields, source) else Nested(stage.fields, q)
  {
    hide Nested, TakeNested, WriteNested;
    var m := stage.fields;
    TakeNestedSpec(m, source);
    var (taken, value) := TakeNested(m, source);
    TakeSame(m, source, target);
    if q != source {
      TakeSame(m, source, q);
    }
    if value.Some? {
      WriteNestedSpec(taken, target, value.value, false);
      if q != target {
        WriteSame(taken, target, value.value, false, q);
      }
    }
  }

  /** v1.5.4: the close action has moved if its place was free, the background fields and the tip
      are gone, every other nested field is as before. */
  lemma V154Effect(m: Fields, q: FieldPath)
    requires |q| == 2
    ensures var free := Nested(m, CLOSE_ACTION).None?;
      Nested(MigrateV154(m).fields, q)
      == if (q[0] == PERSONALIZE && q[1] in BACKGROUND_KEYS) || q == GO_BUTTON_TIPS || (q == OLD_CLOSE_ACTION && free) then None
         else if q == CLOSE_ACTION && free then Nested(m, OLD_CLOSE_ACTION) else Nested(m, q)
  {
    hide Nested, Stage.Move, Stage.Remove, Stage.RemoveAll, Cleanup;
    var s0 := Stage(m, []);
    var s1 := s0.Move(OLD_CLOSE_ACTION, CLOSE_ACTION);
    var s2 := s1.RemoveAll(PERSONALIZE, BACKGROUND_KEYS);
    var s3 := s2.Remove(GO_BUTTON_TIPS);
    assert |OLD_CLOSE_ACTION[0]| != |CLOSE_ACTION[0]| && |OLD_CLOSE_ACTION[0]| != |PERSONALIZE| && |CLOSE_ACTION[0]| != |PERSONALIZE|;
    assert |GO_BUTTON_TIPS[0]| != |OLD_CLOSE_ACTION[0]| && GO_BUTTON_TIPS[0] != CLOSE_ACTION[0];
    MoveEffect(s0, OLD_CLOSE_ACTION, CLOSE_ACTION, q);
    RemoveAllEffect(s1, PERSONALIZE, BACKGROUND_KEYS, q);
    RemoveEffect(s2, GO_BUTTON_TIPS, q);
    CleanSame(s3.fields, q);
  }

  /** v1.6.0: the window state has moved if its place was free. */
  lemma V160Effect(m: Fields, q: FieldPath)
    requires |q| == 2
    ensures var free := Nested(m, MAIN_WINDOW).None?;
      Nested(MigrateV160(m).fields, q)
      == if q == OLD_MAIN_WINDOW && free then None
         else if q == MAIN_WINDOW && free then Nested(m, OLD_MAIN_WINDOW) else Nested(m, q)
  {
    hide Nested;
    assert |OLD_MAIN_WINDOW[1]| != |MAIN_WINDOW[1]|;
    MoveEffect(Stage(m, []), OLD_MAIN_WINDOW, MAIN_WINDOW, q);
  }

  /** v1.7.0: the acceptance has its default, the title bar fields are gone. */
  lemma V170Effect(m: Fields, q: FieldPath)
    requires |q| == 2
    ensures Nested(MigrateV170(m).fields, q)
      == if q[0] == PERSONALIZE && q[1] in TITLE_TAB_BAR_KEYS then None
         else if q == EULA_ACCEPTED && Nested(m, EULA_ACCEPTED).None? then Some(Bool(false)) else Nested(m, q)
  {
    hide Nested, Stage.Default, Stage.RemoveAll, Cleanup;
    var s0 := Stage(m, []);
    var s1 := s0.Default(EULA_ACCEPTED, Bool(false));
    assert |EULA_ACCEPTED[0]| != |PERSONALIZE|;
    DefaultEffect(s0, EULA_ACCEPTED, Bool(false), q);
    RemoveAllEffect(s1, PERSONALIZE, TITLE_TAB_BAR_KEYS, q);
    CleanSame(s1.RemoveAll(PERSONALIZE, TITLE_TAB_BAR_KEYS).fields, q);
  }

  /** v1.7.28: theme fields are copied to free places, the notice fields have their defaults. */
  lemma V1728Effect(m: Fields, q: FieldPath)
    requires |q| == 2
    ensures Nested(MigrateV1728(m).fields, q)
      == if Nested(m, q).Some? then Nested(m, q)
         else if q == THEME_MODE then Nested(m, OLD_THEME_MODE)
         else if q == THEME_COLOR then Nested(m, OLD_THEME_COLOR)
         else if q == IGNORED_NOTICES then Some(Str("[]"))
         else if q == SNOOZED_NOTICES then Some(Str("{}")) else None
  {
    hide Nested, Stage.Default, Stage.Copy;
    var s0 := Stage(m, []);
    var s1 := s0.Copy(OLD_THEME_MODE, THEME_MODE);
    var s2 := s1.Copy(OLD_THEME_COLOR, THEME_COLOR);
    var s3 := s2.Default(IGNORED_NOTICES, Str("[]"));
    assert |THEME_MODE[1]| != |THEME_COLOR[1]| && |THEME_MODE[0]| != |IGNORED_NOTICES[0]|;
    assert IGNORED_NOTICES[1] != SNOOZED_NOTICES[1] && OLD_THEME_COLOR[0] != THEME_MODE[0];
    CopyEffect(s0, OLD_THEME_MODE, THEME_MODE, q);
    CopyEffect(s0, OLD_THEME_MODE, THEME_MODE, OLD_THEME_COLOR);
    CopyEffect(s1, OLD_THEME_COLOR, THEME_COLOR, q);
    DefaultEffect(s2, IGNORED_NOTICES, Str("[]"), q);
    DefaultEffect(s3, SNOOZED_NOTICES, Str("{}"), q);
  }

  /** The final sweep and stamp: the password is gone, the version is v2.0, the rest is as before. */
  lemma SweepEffect(m: Fields, q: FieldPath)
    requires |q| == 2
    ensures Nested(WriteNested(Sweep(m).fields, CONFIG_VERSION, Str(V20), true).0, q)
      == if q == CONFIG_VERSION then Some(Str(V20)) else if q == REMOTE_PASSWORD then None else Nested(m, q)
  {
    hide Nested, Stage.Remove, Cleanup;
    var s := Stage(m, []).Remove(REMOTE_PASSWORD);
    assert CONFIG_VERSION[0] != REMOTE_PASSWORD[0];
    RemoveEffect(Stage(m, []), REMOTE_PASSWORD, q);
    CleanSame(s.fields, q);
    WriteNestedSpec(Sweep(m).fields, CONFIG_VERSION, Str(V20), true);
    if q != CONFIG_VERSION {
      WriteSame(Sweep(m).fields, CONFIG_VERSION, Str(V20), true, q);
    }
  }

  // ---------------------------------------------------------------- what survives

  /** A top-level field that is not an empty object keeps its value, and none appears. */
  ghost predicate KeepsTop(m: Fields, m': Fields, k: string) {
    && (k in m' ==> k in m && m'[k] == m[k])
    && (k in m && m[k] != Obj(map[]) ==> k in m')
  }

  lemma MoveKeepsTop(stage: Stage, source: FieldPath, target: FieldPath, k: string)
    requires k != source[0] && k != target[0]
    ensures KeepsTop(stage.fields, stage.Move(source, target).fields, k)
  {
  }

  lemma RemoveKeepsTop(stage: Stage, path: FieldPath, k: string)
    requires k != path[0]
    ensures KeepsTop(stage.fields, stage.Remove(path).fields, k)
  {
  }

  lemma {:induction false} RemoveAllKeepsTop(stage: Stage, section: string, keys: seq<string>, k: string)
    requires k != section
    ensures KeepsTop(stage.fields, stage.RemoveAll(section, keys).fields, k)
    decreases |keys|
  {
    hide TakeNested;
    if keys != [] {
      var n := |keys| - 1;
      RemoveAllKeepsTop(stage, section, keys[..n], k);
      RemoveKeepsTop(stage.RemoveAll(section, keys[..n]), [section, keys[n]], k);
    }
  }

  lemma DefaultKeepsTop(stage: Stage, path: FieldPath, value: Json, k: string)
    requires k != path[0]
    ensures KeepsTop(stage.fields, stage.Default(path, value).fields, k)
  {
  }

  lemma CopyKeepsTop(stage: Stage, source: FieldPath, target: FieldPath, k: string)
    requires k != target[0]
    ensures KeepsTop(stage.fields, stage.Copy(source, target).fields, k)
  {
    hide Nested;
  }

  /** The sections some rule names. */
  predicate NamedSection(k: string) {
    k == CONFIG_VERSION[0] || k == OLD_CLOSE_ACTION[0] || k == CLOSE_ACTION[0] || k == PERSONALIZE || k == GO_BUTTON_TIPS[0]
    || k == THEME_MODE[0] || k == IGNORED_NOTICES[0] || k == REMOTE_PASSWORD[0]
  }

  /** The fields some rule takes away, and the one that is overwritten. */
  predicate TakenField(q: FieldPath) {
    q == OLD_CLOSE_ACTION || q == GO_BUTTON_TIPS || q == OLD_MAIN_WINDOW || q == REMOTE_PASSWORD || q == CONFIG_VERSION
    || (|q| == 2 && q[0] == PERSONALIZE && (q[1] in BACKGROUND_KEYS || q[1] in TITLE_TAB_BAR_KEYS))
  }

  /** The fields some rule may bring. */
  predicate AddedField(q: FieldPath) {
    q == CLOSE_ACTION || q == MAIN_WINDOW || q == EULA_ACCEPTED || q == THEME_MODE || q == THEME_COLOR
    || q == IGNORED_NOTICES || q == SNOOZED_NOTICES
  }

  lemma V154KeepsTop(m: Fields, k: string)
    requires !NamedSection(k)
    ensures KeepsTop(m, MigrateV154(m).fields, k)
  {
    hide Stage.Move, Stage.Remove, Stage.RemoveAll;
    var s1 := Stage(m, []).Move(OLD_CLOSE_ACTION, CLOSE_ACTION);
    var s2 := s1.RemoveAll(PERSONALIZE, BACKGROUND_KEYS);
    MoveKeepsTop(Stage(m, []), OLD_CLOSE_ACTION, CLOSE_ACTION, k);
    RemoveAllKeepsTop(s1, PERSONALIZE, BACKGROUND_KEYS, k);
    RemoveKeepsTop(s2, GO_BUTTON_TIPS, k);
  }

  lemma V170KeepsTop(m: Fields, k: string)
    requires !NamedSection(k)
    ensures KeepsTop(m, MigrateV170(m).fields, k)
  {
    hide Stage.Default, Stage.RemoveAll;
    DefaultKeepsTop(Stage(m, []), EULA_ACCEPTED, Bool(false), k);
    RemoveAllKeepsTop(Stage(m, []).Default(EULA_ACCEPTED, Bool(false)), PERSONALIZE, TITLE_TAB_BAR_KEYS, k);
  }

  lemma V1728KeepsTop(m: Fields, k: string)
    requires !NamedSection(k)
    ensures KeepsTop(m, MigrateV1728(m).fields, k)
  {
    hide Stage.Default, Stage.Copy;
    var s1 := Stage(m, []).Copy(OLD_THEME_MODE, THEME_MODE);
    var s2 := s1.Copy(OLD_THEME_COLOR, THEME_COLOR);
    CopyKeepsTop(Stage(m, []), OLD_THEME_MODE, THEME_MODE, k);
    CopyKeepsTop(s1, OLD_THEME_COLOR, THEME_COLOR, k);
    DefaultKeepsTop(s2, IGNORED_NOTICES, Str("[]"), k);
    DefaultKeepsTop(s2.Default(IGNORED_NOTICES, Str("[]")), SNOOZED_NOTICES, Str("{}"), k);
  }

  lemma StepKeepsTop(version: string, m: Fields, k: string)
    requires Distance(version) > 0 && !NamedSection(k)
    ensures KeepsTop(m, Step(version, m).1.fields, k)
  {
    hide MigrateV154, MigrateV170, MigrateV1728, Stage.Move;
    V154KeepsTop(m, k);
    MoveKeepsTop(Stage(m, []), OLD_MAIN_WINDOW, MAIN_WINDOW, k);
    V170KeepsTop(m, k);
    V1728KeepsTop(m, k);
  }

  lemma StepKeepsNested(version: string, m: Fields, q: FieldPath)
    requires Distance(version) > 0 && |q| == 2 && !TakenField(q) && (Nested(m, q).Some? || !AddedField(q))
    ensures Nested(Step(version, m).1.fields, q) == Nested(m, q)
  {
    hide MigrateV154, MigrateV160, MigrateV170, MigrateV1728, Nested;
    V154Effect(m, q);
    V160Effect(m, q);
    V170Effect(m, q);
    V1728Effect(m, q);
  }

  lemma {:induction false} UpgradeKeeps(version: string, m: Fields, k: string, q: FieldPath)
    requires |q| == 2 && !NamedSection(k) && !TakenField(q)
    ensures KeepsTop(m, Upgrade(version, m).0, k)
    ensures Nested(m, q).Some? || !AddedField(q) ==> Nested(Upgrade(version, m).0, q) == Nested(m, q)
    decreases Distance(version)
  {
    hide NamedSection, TakenField, AddedField, Step, Nested;
    if Distance(version) > 0 {
      var (next, stage) := Step(version, m);
      StepIsCloser(version, m);
      StepKeepsTop(version, m, k);
      if Nested(m, q).Some? || !AddedField(q) {
        StepKeepsNested(version, m, q);
      }
      UpgradeKeeps(next, stage.fields, k, q);
    }
  }

  /** A top-level key no rule names is kept with its value, unless it is an empty object, and a
      field one level down is kept with its value unless it is one of those taken away; none appears
      but those brought. */
  lemma Conservation(payload: Json, k: string, q: FieldPath)
    requires |q| == 2 && !NamedSection(k) && !TakenField(q)
    ensures var m, r := RootOf(payload), RootOf(Migrated(payload).payload);
      && (k in r <==> k in m && m[k] != Obj(map[])) && (k in r ==> r[k] == m[k])
      && (Nested(m, q).Some? || !AddedField(q) ==> Nested(r, q) == Nested(m, q))
  {
    hide Upgrade, ReadConfigVersion, Nested, Stage.Remove, AddedField;
    var m := RootOf(payload);
    var upgraded := Upgrade(ReadConfigVersion(m), m).0;
    UpgradeKeeps(ReadConfigVersion(m), m, k, q);
    RemoveKeepsTop(Stage(upgraded, []), REMOTE_PASSWORD, k);
    SweepEffect(upgraded, q);
  }

  // ---------------------------------------------------------------- named sections that are no objects

  /** A top-level value that is not an object. */
  predicate Plain(m: Fields, k: string) {
    k in m && !m[k].Obj?
  }

  /** A step replaces a plain section that it writes a field into, and that alone. */
  predicate StepOverwrites(version: string, m: Fields, k: string) {
    || (version == V154 && k == CLOSE_ACTION[0] && Nested(m, OLD_CLOSE_ACTION).Some?)
    || (version == V170 && k == EULA_ACCEPTED[0])
    || (version == V1728 && (k == IGNORED_NOTICES[0] || (k == THEME_MODE[0] && HasOldTheme(m))))
  }

  predicate HasOldTheme(m: Fields) {
    Nested(m, OLD_THEME_MODE).Some? || Nested(m, OLD_THEME_COLOR).Some?
  }

  /** What the whole migration replaces. */
  predicate Overwrites(version: string, m: Fields, k: string) {
    || k == CONFIG_VERSION[0]
    || (version == V154 && k == CLOSE_ACTION[0] && Nested(m, OLD_CLOSE_ACTION).Some?)
    || (Distance(version) > 0 && (k == IGNORED_NOTICES[0] || (k == THEME_MODE[0] && HasOldTheme(m))))
  }

  /** `k` is plain and as before, or it is not plain. */
  ghost predicate Fate(m: Fields, m': Fields, k: string, overwritten: bool) {
    if Plain(m, k) && !overwritten then k in m' && m'[k] == m[k] else !Plain(m', k)
  }

  lemma WriteFate(m: Fields, path: FieldPath, value: Json, overwrite: bool, k: string)
    requires |path| == 2
    ensures Fate(m, WriteNested(m, path, value, overwrite).0, k, k == path[0])
  {
    var inner := WriteNested(ObjectAt(m, path[0]), path[1..], value, overwrite);
    assert WriteNested(m, path, value, overwrite) == (m[path[0] := Obj(inner.0)], inner.1);
  }

  lemma TakeFate(m: Fields, path: FieldPath, k: string)
    requires |path| == 2
    ensures Fate(m, TakeNested(m, path).0, k, false)
  {
  }

  lemma CleanFate(m: Fields, k: string)
    ensures Fate(m, Cleanup(m), k, false)
  {
  }

  lemma {:induction false} RemoveAllFate(stage: Stage, section: string, keys: seq<string>, k: string)
    ensures Fate(stage.fields, stage.RemoveAll(section, keys).fields, k, false)
    decreases |keys|
  {
    hide TakeNested;
    if keys != [] {
      var n := |keys| - 1;
      RemoveAllFate(stage, section, keys[..n], k);
      TakeFate(stage.RemoveAll(section, keys[..n]).fields, [section, keys[n]], k);
    }
  }

  lemma MoveFate(stage: Stage, source: FieldPath, target: FieldPath, k: string)
    requires |source| == 2 && |target| == 2
    ensures Fate(stage.fields, stage.Move(source, target).fields, k, k == target[0] && Nested(stage.fields, source).Some?)
  {
    hide TakeNested, WriteNested;
    var m := stage.fields;
    var (taken, value) := TakeNested(m, source);
    TakeNestedSpec(m, source);
    TakeFate(m, source, k);
    if value.Some? {
      WriteFate(taken, target, value.value, false, k);
      if !WriteNested(taken, target, value.value, false).1 {
        WriteNestedSpec(taken, target, value.value, false);
      }
    }
  }

  lemma DefaultFate(stage: Stage, path: FieldPath, value: Json, k: string)
    requires |path| == 2
    ensures Fate(stage.fields, stage.Default(path, value).fields, k, k == path[0])
  {
    WriteFate(stage.fields, path, value, false, k);
  }

  lemma CopyFate(stage: Stage, source: FieldPath, target: FieldPath, k: string)
    requires |target| == 2
    ensures Fate(stage.fields, stage.Copy(source, target).fields, k, k == target[0] && Nested(stage.fields, source).Some?)
  {
    hide Nested, WriteNested;
    if Nested(stage.fields, source).Some? {
      WriteFate(stage.fields, target, Nested(stage.fields, source).value, false, k);
    }
  }

  lemma V154Fate(m: Fields, k: string)
    ensures Fate(m, MigrateV154(m).fields, k, StepOverwrites(V154, m, k))
  {
    hide Nested, Stage.Move, Stage.Remove, Stage.RemoveAll, Cleanup;
    var s1 := Stage(m, []).Move(OLD_CLOSE_ACTION, CLOSE_ACTION);
    var s2 := s1.RemoveAll(PERSONALIZE, BACKGROUND_KEYS);
    MoveFate(Stage(m, []), OLD_CLOSE_ACTION, CLOSE_ACTION, k);
    RemoveAllFate(s1, PERSONALIZE, BACKGROUND_KEYS, k);
    RemoveFate(s2, GO_BUTTON_TIPS, k);
    CleanFate(s2.Remove(GO_BUTTON_TIPS).fields, k);
  }

  lemma RemoveFate(stage: Stage, path: FieldPath, k: string)
    requires |path| == 2
    ensures Fate(stage.fields, stage.Remove(path).fields, k, false)
  {
    hide TakeNested;
    TakeFate(stage.fields, path, k);
  }

  /** The step to v1.7.0 moves a field inside one section, so that nothing plain is in its way. */
  lemma V160Fate(m: Fields, k: string)
    ensures Fate(m, MigrateV160(m).fields, k, false)
  {
    MoveFate(Stage(m, []), OLD_MAIN_WINDOW, MAIN_WINDOW, k);
  }

  lemma V170Fate(m: Fields, k: string)
    ensures Fate(m, MigrateV170(m).fields, k, StepOverwrites(V170, m, k))
  {
    hide Nested, Stage.Default, Stage.RemoveAll, Cleanup;
    var s1 := Stage(m, []).Default(EULA_ACCEPTED, Bool(false));
    DefaultFate(Stage(m, []), EULA_ACCEPTED, Bool(false), k);
    RemoveAllFate(s1, PERSONALIZE, TITLE_TAB_BAR_KEYS, k);
    CleanFate(s1.RemoveAll(PERSONALIZE, TITLE_TAB_BAR_KEYS).fields, k);
    DistinctVersions();
  }

  lemma DistinctVersions()
    ensures V170 != V154 && V170 != V1728 && V154 != V1728 && V160 != V154 && V160 != V170 && V160 != V1728
  {
    assert V170[3] != V154[3] && |V170| != |V1728| && |V154| != |V1728| && V160[3] != V154[3] && V160[3] != V170[3];
  }

  lemma V1728Fate(m: Fields, k: string)
    ensures Fate(m, MigrateV1728(m).fields, k, StepOverwrites(V1728, m, k))
  {
    hide Nested, Stage.Default, Stage.Copy;
    var s1 := Stage(m, []).Copy(OLD_THEME_MODE, THEME_MODE);
    var s2 := s1.Copy(OLD_THEME_COLOR, THEME_COLOR);
    var s3 := s2.Default(IGNORED_NOTICES, Str("[]"));
    CopyFate(Stage(m, []), OLD_THEME_MODE, THEME_MODE, k);
    assert OLD_THEME_COLOR[0] != THEME_MODE[0];
    CopyEffect(Stage(m, []), OLD_THEME_MODE, THEME_MODE, OLD_THEME_COLOR);
    CopyFate(s1, OLD_THEME_COLOR, THEME_COLOR, k);
    DefaultFate(s2, IGNORED_NOTICES, Str("[]"), k);
    DefaultFate(s3, SNOOZED_NOTICES, Str("{}"), k);
    DistinctVersions();
  }

  lemma StepFate(version: string, m: Fields, k: string)
    requires Distance(version) > 0
    ensures Fate(m, Step(version, m).1.fields, k, StepOverwrites(version, m, k))
  {
    hide MigrateV154, MigrateV160, MigrateV170, MigrateV1728, Nested, Fate;
    V154Fate(m, k);
    V160Fate(m, k);
    V170Fate(m, k);
    V1728Fate(m, k);
    DistinctVersions();
  }

  /** No step takes the old theme away, or brings it. */
  lemma OldThemeStays(version: string, m: Fields)
    requires Distance(version) > 0
    ensures HasOldTheme(Step(version, m).1.fields) <==> HasOldTheme(m)
  {
    hide MigrateV154, MigrateV160, MigrateV170, MigrateV1728, Nested;
    OldThemeField(version, m, OLD_THEME_MODE);
    OldThemeField(version, m, OLD_THEME_COLOR);
  }

  lemma OldThemeIsListedNowhere(q: FieldPath)
    requires q == OLD_THEME_MODE || q == OLD_THEME_COLOR
    ensures !TakenField(q) && !AddedField(q)
  {
    assert |q[0]| == 11 && q[1][0] == 'T' && q[1][1] == 'h';
    assert forall i | 0 <= i < |BACKGROUND_KEYS| :: BACKGROUND_KEYS[i][0] == 'B';
    assert forall i | 0 <= i < |TITLE_TAB_BAR_KEYS| :: TITLE_TAB_BAR_KEYS[i][1] == 'i';
  }

  lemma OldThemeField(version: string, m: Fields, q: FieldPath)
    requires Distance(version) > 0 && (q == OLD_THEME_MODE || q == OLD_THEME_COLOR)
    ensures Nested(Step(version, m).1.fields, q) == Nested(m, q)
  {
    hide Step, Nested, TakenField, AddedField, Distance;
    OldThemeIsListedNowhere(q);
    StepKeepsNested(version, m, q);
  }

  lemma {:induction false} UpgradeFate(version: string, m: Fields, k: string)
    requires k != CONFIG_VERSION[0]
    ensures Fate(m, Upgrade(version, m).0, k, Overwrites(version, m, k))
    decreases Distance(version)
  {
    hide Nested, Step, HasOldTheme;
    if Distance(version) > 0 {
      var (next, stage) := Step(version, m);
      StepIsCloser(version, m);
      StepFate(version, m, k);
      OldThemeStays(version, m);
      UpgradeFate(next, stage.fields, k);
      DistinctVersions();
      NextVersion(version, m);
    }
  }

  lemma NextVersion(version: string, m: Fields)
    requires Distance(version) > 0
    ensures Step(version, m).0 == if version == V154 then V160 else if version == V160 then V170
                                  else if version == V170 then V1728 else V20
  {
    hide MigrateV154, MigrateV160, MigrateV170, MigrateV1728;
  }

  /** A top-level value that is no object is kept as it is, unless a field is written into its place;
      exactly then it is gone. */
  lemma PlainSectionFate(payload: Json, k: string)
    requires Plain(RootOf(payload), k)
    ensures var m, r := RootOf(payload), RootOf(Migrated(payload).payload);
      if Overwrites(ReadConfigVersion(m), m, k) then !Plain(r, k) else k in r && r[k] == m[k]
  {
    hide Upgrade, ReadConfigVersion, Nested, Stage.Remove, HasOldTheme, WriteNested, Cleanup;
    var m := RootOf(payload);
    var upgraded := Upgrade(ReadConfigVersion(m), m).0;
    if k != CONFIG_VERSION[0] {
      UpgradeFate(ReadConfigVersion(m), m, k);
    }
    var removed := Stage(upgraded, []).Remove(REMOTE_PASSWORD).fields;
    RemoveFate(Stage(upgraded, []), REMOTE_PASSWORD, k);
    CleanFate(removed, k);
    WriteFate(Sweep(upgraded).fields, CONFIG_VERSION, Str(V20), true, k);
  }
}
