/**
 What the whole migration of an application configuration makes of every field one level down, as a
 function of the configuration it was given.
 */
module AppMigrationWhole {
  import opened Common
  import opened JsonModel
  import opened AppMigration

  // ---------------------------------------------------------------- names

  lemma Versions()
    ensures V154 == "v1.5.4" && V160 == "v1.6.0" && V170 == "v1.7.0" && V1728 == "v1.7.28" && V20 == "v2.0"
    ensures Distance("v1.5.4") == 4 && Distance("v1.6.0") == 3 && Distance("v1.7.0") == 2 && Distance("v1.7.28") == 1
    ensures Distance("v2.0") == 0
  {
    DistinctVersions();
    assert |V20| == 4;
  }

  lemma Places()
    ensures CONFIG_VERSION == ["Info", "ConfigVersion"] && SCHEMA_VERSION == ["Info", "ConfigSchemaVersion"]
    ensures EULA_ACCEPTED == ["Info", "EulaAccepted"]
    ensures OLD_MAIN_WINDOW == ["Info", "main_window"] && MAIN_WINDOW == ["Info", "MainWindow"]
    ensures OLD_CLOSE_ACTION == ["Personalized", "CloseBtnAction"] && CLOSE_ACTION == ["General", "CloseBtnAction"]
    ensures GO_BUTTON_TIPS == ["HideTips", "HideUsingGoBtnTips"] && REMOTE_PASSWORD == ["Remote", "Password"]
    ensures OLD_THEME_MODE == ["Personalize", "ThemeMode"] && THEME_MODE == ["QFluentWidgets", "ThemeMode"]
    ensures OLD_THEME_COLOR == ["Personalize", "ThemeColor"] && THEME_COLOR == ["QFluentWidgets", "ThemeColor"]
    ensures IGNORED_NOTICES == ["Home", "IgnoredNoticeKeys"] && SNOOZED_NOTICES == ["Home", "SnoozedNoticeItems"]
  {
  }

  // ---------------------------------------------------------------- the version a file is taken for

  /** A version is written down. */
  predicate StatesVersion(m: Fields) {
    match Nested(m, ["Info", "ConfigVersion"]) case Some(Str(s)) => Trim(s) != "" case _ => false
  }

  predicate HasAny(m: Fields, section: string, keys: seq<string>) {
    exists i | 0 <= i < |keys| :: Nested(m, [section, keys[i]]).Some?
  }

  predicate HasBackground(m: Fields) {
    HasAny(m, "Personalize", BACKGROUND_KEYS) || Nested(m, ["HideTips", "HideUsingGoBtnTips"]).Some?
  }

  /** What a file without a version is told by: leftovers of the oldest version first. */
  lemma VersionIsReadFrom(m: Fields)
    ensures StatesVersion(m) ==> ReadConfigVersion(m) == Trim(Nested(m, ["Info", "ConfigVersion"]).value.s)
    ensures !StatesVersion(m) ==>
      var schema, window := Nested(m, ["Info", "ConfigSchemaVersion"]).Some?, Nested(m, ["Info", "main_window"]).Some?;
      var bars, eula := HasAny(m, "Personalize", TITLE_TAB_BAR_KEYS), Nested(m, ["Info", "EulaAccepted"]).Some?;
      && (ReadConfigVersion(m) == "v2.0" <==> schema)
      && (ReadConfigVersion(m) == "v1.5.4" <==> !schema && HasBackground(m))
      && (ReadConfigVersion(m) == "v1.6.0" <==> !schema && !HasBackground(m) && window)
      && (ReadConfigVersion(m) == "v1.7.0" <==> !schema && !HasBackground(m) && !window && (bars || !eula))
      && (ReadConfigVersion(m) == "v1.7.28" <==> !schema && !HasBackground(m) && !window && !bars && eula)
  {
    hide Nested, Trim, BACKGROUND_KEYS, TITLE_TAB_BAR_KEYS;
    Versions();
    Places();
    DistinctVersions();
    AnyIff(m, "Personalize", BACKGROUND_KEYS);
    AnyIff(m, "Personalize", TITLE_TAB_BAR_KEYS);
    VersionV20();
  }

  lemma VersionV20()
    ensures V20 != V154 && V20 != V160 && V20 != V170 && V20 != V1728
  {
    assert |V20| == 4;
  }

  lemma AnyIff(m: Fields, section: string, keys: seq<string>)
    ensures AnyNested(m, section, keys) <==> HasAny(m, section, keys)
  {
    hide Nested;
    if HasAny(m, section, keys) {
      var i :| 0 <= i < |keys| && Nested(m, [section, keys[i]]).Some?;
      assert keys[i] in keys;
    }
  }

  // ---------------------------------------------------------------- every field

  /** A field that is given this value if its place is free. */
  function IfFree(m: Fields, q: FieldPath, v: Option<Json>): Option<Json> {
    if Nested(m, q).None? then v else Nested(m, q)
  }

  /** A field after the last `n` of the four steps. */
  function Stepped(n: nat, m: Fields, q: FieldPath): Option<Json>
    requires |q| == 2
  {
    if q == ["General", "CloseBtnAction"] && n >= 4 then IfFree(m, q, Nested(m, ["Personalized", "CloseBtnAction"]))
    else if q == ["Personalized", "CloseBtnAction"] && n >= 4 && Nested(m, ["General", "CloseBtnAction"]).None? then None
    else if q == ["HideTips", "HideUsingGoBtnTips"] && n >= 4 then None
    else if q[0] == "Personalize" && q[1] in BACKGROUND_KEYS && n >= 4 then None
    else if q == ["Info", "MainWindow"] && n >= 3 then IfFree(m, q, Nested(m, ["Info", "main_window"]))
    else if q == ["Info", "main_window"] && n >= 3 && Nested(m, ["Info", "MainWindow"]).None? then None
    else if q == ["Info", "EulaAccepted"] && n >= 2 then IfFree(m, q, Some(Bool(false)))
    else if q[0] == "Personalize" && q[1] in TITLE_TAB_BAR_KEYS && n >= 2 then None
    else if q == ["QFluentWidgets", "ThemeMode"] && n >= 1 then IfFree(m, q, Nested(m, ["Personalize", "ThemeMode"]))
    else if q == ["QFluentWidgets", "ThemeColor"] && n >= 1 then IfFree(m, q, Nested(m, ["Personalize", "ThemeColor"]))
    else if q == ["Home", "IgnoredNoticeKeys"] && n >= 1 then IfFree(m, q, Some(Str("[]")))
    else if q == ["Home", "SnoozedNoticeItems"] && n >= 1 then IfFree(m, q, Some(Str("{}")))
    else Nested(m, q)
  }

  /** A field after the whole migration: the password is gone and the version written down. */
  function FieldAfter(n: nat, m: Fields, q: FieldPath): Option<Json>
    requires |q| == 2
  {
    if q == ["Info", "ConfigVersion"] then Some(Str("v2.0"))
    else if q == ["Remote", "Password"] then None
    else Stepped(n, m, q)
  }

  predicate InBackground(q: FieldPath) {
    |q| == 2 && q[0] == PERSONALIZE && q[1] in BACKGROUND_KEYS
  }

  predicate InTitleBar(q: FieldPath) {
    |q| == 2 && q[0] == PERSONALIZE && q[1] in TITLE_TAB_BAR_KEYS
  }

  /** The old theme is in neither list, and no key of one list is in the other. */
  lemma KeysApart(q: FieldPath)
    ensures !InBackground(OLD_THEME_MODE) && !InTitleBar(OLD_THEME_MODE)
    ensures !InBackground(OLD_THEME_COLOR) && !InTitleBar(OLD_THEME_COLOR)
    ensures !(InBackground(q) && InTitleBar(q))
  {
    hide BACKGROUND_KEYS, TITLE_TAB_BAR_KEYS;
    OldThemeIsListedNowhere(OLD_THEME_MODE);
    OldThemeIsListedNowhere(OLD_THEME_COLOR);
    assert InBackground(q) && InTitleBar(q) ==> false by {
      FirstLetters();
    }
  }

  lemma FirstLetters()
    ensures forall k | k in BACKGROUND_KEYS :: k != "" && k[0] == 'B'
    ensures forall k | k in TITLE_TAB_BAR_KEYS :: k != "" && k[0] == 'T'
  {
    assert forall i | 0 <= i < |BACKGROUND_KEYS| :: BACKGROUND_KEYS[i][0] == 'B';
    assert forall i | 0 <= i < |TITLE_TAB_BAR_KEYS| :: TITLE_TAB_BAR_KEYS[i][0] == 'T';
  }

  lemma AfterOne(m: Fields, q: FieldPath)
    requires |q| == 2
    ensures Nested(MigrateV1728(m).fields, q) == Stepped(1, m, q)
  {
    hide MigrateV1728, Nested;
    Places();
    PlacesDiffer();
    V1728Effect(m, q);
  }

  /** Sections and names by their lengths. */
  lemma PlacesDiffer()
    ensures THEME_MODE != THEME_COLOR && THEME_MODE != IGNORED_NOTICES && THEME_MODE != SNOOZED_NOTICES
    ensures THEME_COLOR != IGNORED_NOTICES && THEME_COLOR != SNOOZED_NOTICES && IGNORED_NOTICES != SNOOZED_NOTICES
  {
    assert |THEME_MODE[1]| != |THEME_COLOR[1]| && |THEME_MODE[0]| != |IGNORED_NOTICES[0]|;
    assert IGNORED_NOTICES[1] != SNOOZED_NOTICES[1];
  }

  lemma AfterTwo(m: Fields, q: FieldPath)
    requires |q| == 2
    ensures Stepped(1, MigrateV170(m).fields, q) == Stepped(2, m, q)
  {
    hide MigrateV170, Nested, BACKGROUND_KEYS, TITLE_TAB_BAR_KEYS;
    Places();
    KeysApart(q);
    V170Effect(m, q);
    V170Effect(m, OLD_THEME_MODE);
    V170Effect(m, OLD_THEME_COLOR);
    assert OLD_THEME_MODE != EULA_ACCEPTED && OLD_THEME_COLOR != EULA_ACCEPTED by { NoTheme(); }
    assert q == EULA_ACCEPTED || InTitleBar(q) ==> q[0] != "QFluentWidgets" && q[0] != "Home" by { NoTheme(); }
  }

  lemma NoTheme()
    ensures |"Info"| == 4 && |"Personalize"| == 11 && |"QFluentWidgets"| == 14 && |"Home"| == 4 && "Home"[0] == 'H'
    ensures |"General"| == 7 && |"Personalized"| == 12 && |"HideTips"| == 8 && |"Remote"| == 6
    ensures "Info"[0] == 'I'
  {
  }

  lemma AfterThree(m: Fields, q: FieldPath)
    requires |q| == 2
    ensures Stepped(2, MigrateV160(m).fields, q) == Stepped(3, m, q)
  {
    hide MigrateV160, Nested, BACKGROUND_KEYS, TITLE_TAB_BAR_KEYS;
    Places();
    V160Effect(m, q);
    V160Effect(m, OLD_THEME_MODE);
    V160Effect(m, OLD_THEME_COLOR);
    NoTheme();
    assert |"MainWindow"| == 10 && |"main_window"| == 11 && |"EulaAccepted"| == 12;
  }

  /** The fields the oldest step touches. */
  predicate InFirstStep(q: FieldPath) {
    q == CLOSE_ACTION || q == OLD_CLOSE_ACTION || q == GO_BUTTON_TIPS || InBackground(q)
  }

  lemma AfterFour(m: Fields, q: FieldPath)
    requires |q| == 2
    ensures Stepped(3, MigrateV154(m).fields, q) == Stepped(4, m, q)
  {
    hide MigrateV154, Nested, Stepped;
    if InFirstStep(q) {
      TouchedFirst(m, q);
    } else {
      UntouchedFirst(m, q);
    }
  }

  lemma TouchedFirst(m: Fields, q: FieldPath)
    requires |q| == 2 && InFirstStep(q)
    ensures Stepped(3, MigrateV154(m).fields, q) == Stepped(4, m, q)
  {
    hide MigrateV154, Nested, BACKGROUND_KEYS, TITLE_TAB_BAR_KEYS;
    Places();
    KeysApart(q);
    V154Effect(m, q);
    NoTheme();
    assert |q[0]| == 7 || |q[0]| == 12 || |q[0]| == 8 || q[0] == "Personalize";
  }

  lemma UntouchedFirst(m: Fields, q: FieldPath)
    requires |q| == 2 && !InFirstStep(q)
    ensures Stepped(3, MigrateV154(m).fields, q) == Stepped(4, m, q)
  {
    hide MigrateV154, Nested, BACKGROUND_KEYS, TITLE_TAB_BAR_KEYS;
    Places();
    KeysApart(q);
    FirstStepLeaves(m, q);
    FirstStepLeaves(m, OLD_THEME_MODE);
    FirstStepLeaves(m, OLD_THEME_COLOR);
    FirstStepLeaves(m, OLD_MAIN_WINDOW);
    FirstStepLeaves(m, MAIN_WINDOW);
  }

  lemma FirstStepLeaves(m: Fields, q: FieldPath)
    requires |q| == 2
    ensures !InFirstStep(q) ==> Nested(MigrateV154(m).fields, q) == Nested(m, q)
    ensures !InFirstStep(OLD_MAIN_WINDOW) && !InFirstStep(MAIN_WINDOW)
    ensures !InFirstStep(OLD_THEME_MODE) && !InFirstStep(OLD_THEME_COLOR)
  {
    hide MigrateV154, Nested, BACKGROUND_KEYS, TITLE_TAB_BAR_KEYS;
    Places();
    KeysApart(q);
    NoTheme();
    V154Effect(m, q);
  }

  lemma UpgradedField(version: string, m: Fields, q: FieldPath)
    requires |q| == 2
    ensures Nested(Upgrade(version, m).0, q) == Stepped(Distance(version), m, q)
    decreases Distance(version)
  {
    hide MigrateV154, MigrateV160, MigrateV170, MigrateV1728, Nested, Stepped;
    Versions();
    DistinctVersions();
    if Distance(version) == 0 {
      NoStep(m, q);
    } else if version == V1728 {
      AfterOne(m, q);
      UpgradeEnds(V20, MigrateV1728(m).fields);
    } else if version == V170 {
      UpgradedField(V1728, MigrateV170(m).fields, q);
      AfterTwo(m, q);
    } else if version == V160 {
      UpgradedField(V170, MigrateV160(m).fields, q);
      AfterThree(m, q);
    } else {
      UpgradedField(V160, MigrateV154(m).fields, q);
      AfterFour(m, q);
    }
  }

  lemma NoStep(m: Fields, q: FieldPath)
    requires |q| == 2
    ensures Stepped(0, m, q) == Nested(m, q)
  {
    hide Nested, BACKGROUND_KEYS, TITLE_TAB_BAR_KEYS;
  }

  /** Every field one level down, in the result of the whole migration. */
  lemma EveryFieldAfter(payload: Json, q: FieldPath)
    requires |q| == 2
    ensures var m := RootOf(payload);
      Nested(RootOf(Migrated(payload).payload), q) == FieldAfter(Distance(ReadConfigVersion(m)), m, q)
  {
    hide Upgrade, ReadConfigVersion, Nested, Stepped, Sweep, WriteNested;
    Places();
    Versions();
    var m := RootOf(payload);
    UpgradedField(ReadConfigVersion(m), m, q);
    SweepEffect(Upgrade(ReadConfigVersion(m), m).0, q);
  }

  // ---------------------------------------------------------------- what is recorded

  /** The removals of those keys of a section that are there, each once. */
  function PresentRemoved(m: Fields, section: string, keys: seq<string>): seq<Change> {
    if keys == [] then []
    else
      var n := |keys| - 1;
      PresentRemoved(m, section, keys[..n])
      + (if Nested(m, [section, keys[n]]).Some? && keys[n] !in keys[..n] then [Removed([section, keys[n]])] else [])
  }

  lemma {:induction false} RemoveAllRecords(stage: Stage, section: string, keys: seq<string>)
    ensures stage.RemoveAll(section, keys).changes == stage.changes + PresentRemoved(stage.fields, section, keys)
    decreases |keys|
  {
    hide Nested, TakeNested;
    if keys == [] {
      assert stage.changes + [] == stage.changes;
    } else {
      var n := |keys| - 1;
      var path: FieldPath := [section, keys[n]];
      RemoveAllRecords(stage, section, keys[..n]);
      RemoveAllEffect(stage, section, keys[..n], path);
      TakeNestedSpec(stage.RemoveAll(section, keys[..n]).fields, path);
    }
  }

  function If(condition: bool, change: Change): seq<Change> {
    if condition then [change] else []
  }

  lemma MoveRecords(stage: Stage, source: FieldPath, target: FieldPath)
    requires |source| == 2 && |target| == 2 && source != target
    ensures stage.Move(source, target).changes
      == stage.changes + If(Nested(stage.fields, source).Some? && Nested(stage.fields, target).None?, Moved(source, target))
  {
    hide Nested, TakeNested, WriteNested;
    assert !(source <= target) && !(target <= source);
    MoveNestedSpec(stage.fields, source, target);
    TakeSame(stage.fields, source, target);
  }

  lemma OtherRecords(stage: Stage, path: FieldPath, source: FieldPath, value: Json)
    ensures stage.Remove(path).changes == stage.changes + If(Nested(stage.fields, path).Some?, Removed(path))
    ensures stage.Default(path, value).changes == stage.changes + If(Nested(stage.fields, path).None?, Defaulted(path))
    ensures stage.Copy(source, path).changes
      == stage.changes + If(Nested(stage.fields, source).Some? && Nested(stage.fields, path).None?, Moved(source, path))
  {
    hide Nested, TakeNested, WriteNested;
    TakeNestedSpec(stage.fields, path);
    WriteNestedSpec(stage.fields, path, value, false);
    if Nested(stage.fields, source).Some? {
      WriteNestedSpec(stage.fields, path, Nested(stage.fields, source).value, false);
    } else {
      assert stage.changes + [] == stage.changes;
    }
  }

  /** The oldest step records the move it makes and the fields it finds to remove. */
  lemma V154Records(m: Fields)
    ensures MigrateV154(m).changes
      == If(Nested(m, OLD_CLOSE_ACTION).Some? && Nested(m, CLOSE_ACTION).None?, Moved(OLD_CLOSE_ACTION, CLOSE_ACTION))
         + PresentRemoved(m, PERSONALIZE, BACKGROUND_KEYS) + If(Nested(m, GO_BUTTON_TIPS).Some?, Removed(GO_BUTTON_TIPS))
  {
    hide Nested, Stage.Move, Stage.Remove, Stage.RemoveAll, Cleanup, PresentRemoved, BACKGROUND_KEYS, If;
    var s0 := Stage(m, []);
    var s1 := s0.Move(OLD_CLOSE_ACTION, CLOSE_ACTION);
    var s2 := s1.RemoveAll(PERSONALIZE, BACKGROUND_KEYS);
    Places();
    NoTheme();
    MoveRecords(s0, OLD_CLOSE_ACTION, CLOSE_ACTION);
    RemoveAllRecords(s1, PERSONALIZE, BACKGROUND_KEYS);
    OtherRecords(s2, GO_BUTTON_TIPS, GO_BUTTON_TIPS, Null);
    MoveEffect(s0, OLD_CLOSE_ACTION, CLOSE_ACTION, GO_BUTTON_TIPS);
    RemoveAllEffect(s1, PERSONALIZE, BACKGROUND_KEYS, GO_BUTTON_TIPS);
    SameSection(s0, BACKGROUND_KEYS);
  }

  /** Moving the close action leaves the appearance section alone. */
  lemma {:induction false} SameSection(stage: Stage, keys: seq<string>)
    ensures PresentRemoved(stage.Move(OLD_CLOSE_ACTION, CLOSE_ACTION).fields, PERSONALIZE, keys)
      == PresentRemoved(stage.fields, PERSONALIZE, keys)
    decreases |keys|
  {
    hide Nested, Stage.Move;
    if keys != [] {
      SameSection(stage, keys[..|keys| - 1]);
      NoTheme();
      MoveEffect(stage, OLD_CLOSE_ACTION, CLOSE_ACTION, [PERSONALIZE, keys[|keys| - 1]]);
    }
  }

  /** The later steps and the sweep record what they move, default and remove. */
  lemma LaterRecords(m: Fields)
    ensures MigrateV160(m).changes
      == If(Nested(m, OLD_MAIN_WINDOW).Some? && Nested(m, MAIN_WINDOW).None?, Moved(OLD_MAIN_WINDOW, MAIN_WINDOW))
    ensures Sweep(m).changes == If(Nested(m, REMOTE_PASSWORD).Some?, Removed(REMOTE_PASSWORD))
  {
    hide Nested, Stage.Move, Stage.Remove, Cleanup, If;
    Places();
    assert |"MainWindow"| != |"main_window"|;
    var s0 := Stage(m, []);
    MoveRecords(s0, OLD_MAIN_WINDOW, MAIN_WINDOW);
    OtherRecords(s0, REMOTE_PASSWORD, REMOTE_PASSWORD, Null);
    NothingBefore(If(Nested(m, OLD_MAIN_WINDOW).Some? && Nested(m, MAIN_WINDOW).None?, Moved(OLD_MAIN_WINDOW, MAIN_WINDOW)));
    NothingBefore(If(Nested(m, REMOTE_PASSWORD).Some?, Removed(REMOTE_PASSWORD)));
  }

  lemma NothingBefore(changes: seq<Change>)
    ensures [] + changes == changes
  {
  }

  lemma V170Records(m: Fields)
    ensures MigrateV170(m).changes
      == If(Nested(m, EULA_ACCEPTED).None?, Defaulted(EULA_ACCEPTED)) + PresentRemoved(m, PERSONALIZE, TITLE_TAB_BAR_KEYS)
  {
    hide Nested, Stage.Default, Stage.RemoveAll, Cleanup, PresentRemoved, TITLE_TAB_BAR_KEYS, If;
    var s0 := Stage(m, []);
    OtherRecords(s0, EULA_ACCEPTED, EULA_ACCEPTED, Bool(false));
    RemoveAllRecords(s0.Default(EULA_ACCEPTED, Bool(false)), PERSONALIZE, TITLE_TAB_BAR_KEYS);
    SameAfterDefault(s0, TITLE_TAB_BAR_KEYS);
    NothingBefore(If(Nested(m, EULA_ACCEPTED).None?, Defaulted(EULA_ACCEPTED)));
  }

  lemma {:induction false} SameAfterDefault(stage: Stage, keys: seq<string>)
    ensures PresentRemoved(stage.Default(EULA_ACCEPTED, Bool(false)).fields, PERSONALIZE, keys)
      == PresentRemoved(stage.fields, PERSONALIZE, keys)
    decreases |keys|
  {
    hide Nested, Stage.Default;
    if keys != [] {
      SameAfterDefault(stage, keys[..|keys| - 1]);
      NoTheme();
      Places();
      DefaultEffect(stage, EULA_ACCEPTED, Bool(false), [PERSONALIZE, keys[|keys| - 1]]);
    }
  }

  lemma V1728Records(m: Fields)
    ensures MigrateV1728(m).changes
      == If(Nested(m, OLD_THEME_MODE).Some? && Nested(m, THEME_MODE).None?, Moved(OLD_THEME_MODE, THEME_MODE))
         + If(Nested(m, OLD_THEME_COLOR).Some? && Nested(m, THEME_COLOR).None?, Moved(OLD_THEME_COLOR, THEME_COLOR))
         + If(Nested(m, IGNORED_NOTICES).None?, Defaulted(IGNORED_NOTICES))
         + If(Nested(m, SNOOZED_NOTICES).None?, Defaulted(SNOOZED_NOTICES))
  {
    hide Nested, Stage.Default, Stage.Copy, If;
    var s0 := Stage(m, []);
    var s1 := s0.Copy(OLD_THEME_MODE, THEME_MODE);
    var s2 := s1.Copy(OLD_THEME_COLOR, THEME_COLOR);
    var s3 := s2.Default(IGNORED_NOTICES, Str("[]"));
    PlacesDiffer();
    Places();
    NoTheme();
    OtherRecords(s0, THEME_MODE, OLD_THEME_MODE, Null);
    OtherRecords(s1, THEME_COLOR, OLD_THEME_COLOR, Null);
    OtherRecords(s2, IGNORED_NOTICES, IGNORED_NOTICES, Str("[]"));
    OtherRecords(s3, SNOOZED_NOTICES, SNOOZED_NOTICES, Str("{}"));
    CopyEffect(s0, OLD_THEME_MODE, THEME_MODE, OLD_THEME_COLOR);
    CopyEffect(s0, OLD_THEME_MODE, THEME_MODE, THEME_COLOR);
    CopiesLeave(s0, IGNORED_NOTICES);
    CopiesLeave(s0, SNOOZED_NOTICES);
    DefaultEffect(s2, IGNORED_NOTICES, Str("[]"), SNOOZED_NOTICES);
    NothingBefore(If(Nested(m, OLD_THEME_MODE).Some? && Nested(m, THEME_MODE).None?, Moved(OLD_THEME_MODE, THEME_MODE)));
  }

  lemma CopiesLeave(stage: Stage, q: FieldPath)
    requires |q| == 2 && q != THEME_MODE && q != THEME_COLOR
    ensures Nested(stage.Copy(OLD_THEME_MODE, THEME_MODE).Copy(OLD_THEME_COLOR, THEME_COLOR).fields, q) == Nested(stage.fields, q)
  {
    hide Nested, Stage.Copy;
    CopyEffect(stage, OLD_THEME_MODE, THEME_MODE, q);
    CopyEffect(stage.Copy(OLD_THEME_MODE, THEME_MODE), OLD_THEME_COLOR, THEME_COLOR, q);
  }

  /** A step is told of under its two versions: change by change, or as one that had nothing to do. */
  lemma StepsAreTold(source: string, target: string, changes: seq<Change>)
    ensures changes == [] ==> Tagged(source, target, changes) == [NoOp(source, target)]
    ensures changes != [] ==> |Tagged(source, target, changes)| == |changes|
    ensures forall i | 0 <= i < |changes| :: Tagged(source, target, changes)[i] == Applied(source, target, changes[i])
  {
  }
}
