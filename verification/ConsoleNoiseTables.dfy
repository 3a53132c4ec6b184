/**
 Exactly which lines the console filter drops, as tables of texts: what a line contains, begins with or
 is.  `ConsoleNoise` has the predicates of the source; here they are taken together.
 */
module ConsoleNoiseTables {
  import opened Common
  import opened ConsoleNoise

  /** One of these texts stands somewhere in the line. */
  ghost predicate Has(t: string, texts: set<string>) {
    exists k, before, after :: k in texts && t == before + k + after
  }

  ghost predicate Begins(t: string, texts: set<string>) {
    exists k, rest :: k in texts && t == k + rest
  }

  predicate Digits(s: string) {
    s != "" && forall i | 0 <= i < |s| :: IsDigit(s[i])
  }

  /** Digits and these words. */
  ghost predicate CountOf(t: string, words: string) {
    exists n :: Digits(n) && t == n + words
  }

  /** Two numbers, each with a comma behind it. */
  ghost predicate Numbered(t: string) {
    |t| >= 5 && exists a, b, rest :: Digits(a) && Digits(b) && t == a + "," + b + "," + rest
  }

  // ---------------------------------------------------------------- the tables

  ghost predicate HotUpdate(t: string) {
    Has(t, {"[QQ hotUpdate]", "hotUpdateApi ", "startAutoUpdate"})
  }

  ghost predicate Electron(t: string) {
    Has(t, {"No handler registered for 'get-remote-win'", "Error occurred in handler for 'get-remote-win'",
            "node:electron/js2c/browser_init"})
  }

  ghost predicate Gpu(t: string) {
    Has(t, {"Exiting GPU process", "viz_main_impl", "gles2_cmd_decoder", "gl_utils.cc", "GPU stall due to ReadPixels",
            "enable-unsafe-swiftshader", "software WebGL has been deprecated", "GroupMarkerNotSet"})
  }

  ghost predicate Startup(t: string) {
    Has(t, {"version_config_filename", "app_package_filename", "config_build_id", "config_base_version",
            "config_current_version", "app_build_version", "not mini app", "[preload] succeeded", "resourcesPath:"})
  }

  ghost predicate Bugly(t: string) {
    || t == "SetLogger" || t == "fatalSetup"
    || Begins(t, {"setParam/", "StartWithOptions ", "PostDelayedTask ", "GetDllPath:", "pub_key_path:", "BuglyManager/",
                  "registBugly/"})
    || Has(t, {"linux-bugly", "BuglyManager", "BuglyService", "NativeCrashHandler", "InitBuglyManager", "UploadBugly",
               "registBugly", "registSignalHandler", "regist native handler", "init bugly", "rqd_record",
               "getCrashDetailBeanFromRecord", "uploadCrashEvent", "get null crashDetailBean"})
  }

  ghost predicate Dbus(t: string) {
    Has(t, {"Failed to connect to the bus", "dbus/bus.cc", "dbus/object_proxy.cc", "/tmp/dbus-"})
  }

  ghost predicate Chromium(t: string) {
    || Has(t, {"Crashpad", "crashpad/", "file_io_posix.cc", "file_io_win.cc"})
    || (Has(t, {":ERROR:"}) && Has(t, {"third_party/", "components/", "content/", "chrome/", "gpu/", "viz/"}))
  }

  ghost predicate CrashDump(t: string) {
    || Has(t, {"Read map line:"})
    || (Begins(t, {"$$"}) && Has(t, {" pc ", "\tpc "}))
    || Has(t, {"Record EupInfo", "EupInfo has been recorded", "Record native key-value", "Native key-value list",
               "Record native log", "Native log has", "native_record_lock", "/crash_files", "crash_files/"})
    || (Numbered(t)
        && Has(t, {"Try to unlock file", "Successfully unlock file", "Successfully lock file", "Try to lock file"}))
  }

  /** A trimmed line that is noise by itself. */
  ghost predicate Noise(t: string) {
    || t == "" || CountOf(t, " js loaded") || Gpu(t) || Startup(t) || Bugly(t) || Dbus(t) || Electron(t) || HotUpdate(t)
    || Has(t, {"app \U{542F}\U{52A8}\U{5206}\U{754C}\U{7EBF}"}) || Has(t, {"DroppedFrame(", "LongTask("})
    || Chromium(t) || CrashDump(t)
  }

  ghost predicate JsonPiece(t: string) {
    || t == "{" || t == "}" || t == "},"
    || Begins(t, {"\"baseVersion\"", "\"curVersion\"", "\"prevVersion\"", "\"onErrorVersions\"", "\"buildId\"",
                  "\"unzipRetryCount\"", "\"updateInfo\"", "\"needUpdate\""})
  }

  ghost predicate LostFrame(t: string) {
    Begins(t, {"at "})
    && Has(t, {"node:electron", "node:events", "Session.emit", "get-remote-win", "browser_init", "js2c/"})
  }

  // ---------------------------------------------------------------- the predicates are the tables

  lemma HasIff(t: string, texts: set<string>)
    ensures ContainsAny(t, texts) <==> Has(t, texts)
  {
    forall k | k in texts ensures Contains(t, k) <==> exists before, after :: t == before + k + after {
      ContainsIff(t, k);
    }
  }

  lemma HasOne(t: string, k: string)
    ensures Contains(t, k) <==> Has(t, {k})
  {
    ContainsIff(t, k);
  }

  lemma BeginsIff(t: string, texts: set<string>)
    ensures StartsWithAny(t, texts) <==> Begins(t, texts)
  {
    forall k | k in texts ensures StartsWith(t, k) <==> exists rest :: t == k + rest {
      if StartsWith(t, k) {
        assert t == k + t[|k|..];
      }
    }
  }

  lemma BeginsOne(t: string, k: string)
    ensures StartsWith(t, k) <==> Begins(t, {k})
  {
    if StartsWith(t, k) {
      assert t == k + t[|k|..];
    }
  }

  lemma {:induction false} DigitsSkipped(n: string, rest: string, i: nat)
    requires i <= |n| && (forall k | 0 <= k < |n| :: IsDigit(n[k])) && (rest == "" || !IsDigit(rest[0]))
    ensures SkipDigits(n + rest, i) == |n|
    decreases |n| - i
  {
    if i < |n| {
      assert (n + rest)[i] == n[i];
      DigitsSkipped(n, rest, i + 1);
    } else if rest != "" {
      assert (n + rest)[i] == rest[0];
    }
  }

  lemma JsLoadedIff(t: string)
    requires Trim(t) == t
    ensures IsJsLoaded(t) <==> CountOf(t, " js loaded")
  {
    hide Trim;
    if IsJsLoaded(t) {
      var j := SkipDigits(t, 0);
      assert Digits(t[..j]) by {
        assert j > 0;
      }
      assert t == t[..j] + " js loaded";
    }
    if n :| Digits(n) && t == n + " js loaded" {
      DigitsSkipped(n, " js loaded", 0);
      assert t[|n|..] == " js loaded" && t[0] == n[0];
    }
  }

  lemma NumberedIff(t: string)
    ensures IsBuglyNumbered(t) <==> Numbered(t)
  {
    if IsBuglyNumbered(t) {
      var i := SkipDigits(t, 0);
      var j := SkipDigits(t, i + 1);
      var a, b, rest := t[..i], t[i + 1..j], t[j + 1..];
      assert forall k | 0 <= k < |b| :: b[k] == t[i + 1 + k];
      assert Digits(a) && Digits(b) && t == a + "," + b + "," + rest;
    }
    if |t| >= 5 && Numbered(t) {
      var a, b, rest :| Digits(a) && Digits(b) && t == a + "," + b + "," + rest;
      TwoNumbers(t, a, b, rest);
    }
  }

  lemma TwoNumbers(t: string, a: string, b: string, rest: string)
    requires Digits(a) && Digits(b) && t == a + "," + b + "," + rest && |t| >= 5
    ensures IsBuglyNumbered(t)
  {
    var tail := "," + b + "," + rest;
    assert t == a + tail && t[0] == a[0] && t[|a|] == ',';
    DigitsSkipped(a, tail, 0);
    var front, back := a + "," + b, "," + rest;
    assert t == front + back && t[|a| + 1] == b[0] && t[|front|] == ',';
    DigitsFrom(t, |a| + 1, |front|);
  }

  lemma {:induction false} DigitsFrom(t: string, i: nat, j: nat)
    requires i <= j < |t| && (forall k | i <= k < j :: IsDigit(t[k])) && !IsDigit(t[j])
    ensures SkipDigits(t, i) == j
    decreases j - i
  {
    if i < j {
      DigitsFrom(t, i + 1, j);
    }
  }

  lemma BuglyIff(t: string)
    requires Trim(t) == t
    ensures IsBuglyNoise(t) <==> Bugly(t)
  {
    hide Trim, Contains, Has, Begins, ContainsAny, StartsWithAny;
    BeginsIff(t, {"setParam/", "StartWithOptions ", "PostDelayedTask ", "GetDllPath:", "pub_key_path:", "BuglyManager/",
                  "registBugly/"});
    HasIff(t, {"linux-bugly", "BuglyManager", "BuglyService", "NativeCrashHandler", "InitBuglyManager", "UploadBugly",
               "registBugly", "registSignalHandler", "regist native handler", "init bugly", "rqd_record",
               "getCrashDetailBeanFromRecord", "uploadCrashEvent", "get null crashDetailBean"});
    HasItself(t, {"linux-bugly", "BuglyManager", "BuglyService", "NativeCrashHandler", "InitBuglyManager", "UploadBugly",
                  "registBugly", "registSignalHandler", "regist native handler", "init bugly", "rqd_record",
                  "getCrashDetailBeanFromRecord", "uploadCrashEvent", "get null crashDetailBean"});
  }

  lemma HasItself(t: string, texts: set<string>)
    ensures t in texts ==> Has(t, texts)
  {
    assert t == "" + t + "";
  }

  lemma CrashDumpIff(t: string)
    requires Trim(t) == t
    ensures IsCrashDump(t) <==> CrashDump(t)
  {
    hide Trim, Contains, Has, Begins, ContainsAny, StartsWith, IsBuglyNumbered, Numbered;
    HasOne(t, "Read map line:");
    BeginsOne(t, "$$");
    HasIff(t, {" pc ", "\tpc "});
    HasIff(t, {"Record EupInfo", "EupInfo has been recorded", "Record native key-value", "Native key-value list",
               "Record native log", "Native log has", "native_record_lock", "/crash_files", "crash_files/"});
    NumberedIff(t);
    HasIff(t, {"Try to unlock file", "Successfully unlock file", "Successfully lock file", "Try to lock file"});
  }

  lemma SimpleTablesIff(t: string)
    ensures IsGpuNoise(t) <==> Gpu(t)
    ensures IsStartupNoise(t) <==> Startup(t)
    ensures IsDbusNoise(t) <==> Dbus(t)
    ensures IsElectronHeader(t) <==> Electron(t)
    ensures IsHotUpdateHeader(t) <==> HotUpdate(t)
    ensures IsHotUpdateNoise(t) <==> HotUpdate(t) || Has(t, {"app \U{542F}\U{52A8}\U{5206}\U{754C}\U{7EBF}"})
    ensures IsFrameNoise(t) <==> Has(t, {"DroppedFrame(", "LongTask("})
    ensures IsChromiumNoise(t) <==> Chromium(t)
  {
    hide Contains, Has, ContainsAny;
    HasIff(t, {"Exiting GPU process", "viz_main_impl", "gles2_cmd_decoder", "gl_utils.cc", "GPU stall due to ReadPixels",
               "enable-unsafe-swiftshader", "software WebGL has been deprecated", "GroupMarkerNotSet"});
    HasIff(t, {"version_config_filename", "app_package_filename", "config_build_id", "config_base_version",
               "config_current_version", "app_build_version", "not mini app", "[preload] succeeded", "resourcesPath:"});
    HasIff(t, {"Failed to connect to the bus", "dbus/bus.cc", "dbus/object_proxy.cc", "/tmp/dbus-"});
    HasIff(t, {"No handler registered for 'get-remote-win'", "Error occurred in handler for 'get-remote-win'",
               "node:electron/js2c/browser_init"});
    HasIff(t, {"[QQ hotUpdate]", "hotUpdateApi ", "startAutoUpdate"});
    HasOne(t, "app \U{542F}\U{52A8}\U{5206}\U{754C}\U{7EBF}");
    HasIff(t, {"DroppedFrame(", "LongTask("});
    HasIff(t, {"Crashpad", "crashpad/", "file_io_posix.cc", "file_io_win.cc"});
    HasOne(t, ":ERROR:");
    HasIff(t, {"third_party/", "components/", "content/", "chrome/", "gpu/", "viz/"});
  }

  /** A trimmed line is noise by itself exactly if one of the tables has it. */
  lemma NoiseLineIff(t: string)
    requires Trim(t) == t
    ensures IsNoiseLine(t) <==> Noise(t)
  {
    hide IsJsLoaded, IsGpuNoise, IsStartupNoise, IsBuglyNoise, IsDbusNoise, IsElectronHeader, IsHotUpdateNoise, IsFrameNoise,
      IsChromiumNoise, IsCrashDump, Trim, Has, CountOf, Gpu, Startup, Bugly, Dbus, Electron, HotUpdate, Chromium, CrashDump;
    JsLoadedIff(t);
    SimpleTablesIff(t);
    BuglyIff(t);
    CrashDumpIff(t);
  }

  lemma PiecesIff(t: string)
    requires Trim(t) == t
    ensures IsJsonFragment(t) <==> JsonPiece(t)
    ensures IsOrphanStack(t) <==> LostFrame(t)
  {
    hide Trim, Contains, Has, Begins, ContainsAny, StartsWithAny, StartsWith;
    BeginsIff(t, {"\"baseVersion\"", "\"curVersion\"", "\"prevVersion\"", "\"onErrorVersions\"", "\"buildId\"",
                  "\"unzipRetryCount\"", "\"updateInfo\"", "\"needUpdate\""});
    BeginsOne(t, "at ");
    HasIff(t, {"node:electron", "node:events", "Session.emit", "get-remote-win", "browser_init", "js2c/"});
  }

  /** A fresh filter keeps exactly the blank lines and those that are in no table. */
  lemma FreshKeepsIff(line: string)
    ensures var t := Trim(line);
      !Step(FRESH, line).0 <==> t == "" || (!Noise(t) && !JsonPiece(t) && !LostFrame(t))
  {
    hide Trim, IsNoiseLine, IsJsonFragment, IsOrphanStack, IsStackFrame, IsHotUpdateHeader, IsElectronHeader, Noise, JsonPiece,
      LostFrame, BraceDelta;
    TrimTwice(line);
    NoiseLineIff(Trim(line));
    PiecesIff(Trim(line));
  }

  /** What a dropped line opens: the braces of an update header, a lone brace or a piece of JSON are
      counted, and a trace follows an Electron header. */
  lemma FreshOpensIff(line: string)
    requires Step(FRESH, line).0
    ensures var t, m := Trim(line), Step(FRESH, line).1;
      && (m.dropStack <==> Noise(t) && Electron(t))
      && m.depth == if BraceDelta(t) > 0 && (if Noise(t) then HotUpdate(t) || t == "{" else JsonPiece(t)) then BraceDelta(t) else 0
  {
    hide Trim, IsNoiseLine, IsJsonFragment, IsOrphanStack, IsStackFrame, IsHotUpdateHeader, IsElectronHeader, Noise, JsonPiece,
      LostFrame, BraceDelta, HotUpdate, Electron;
    TrimTwice(line);
    NoiseLineIff(Trim(line));
    PiecesIff(Trim(line));
    SimpleTablesIff(Trim(line));
  }

  /** A stack frame begins with "at" and a blank. */
  lemma FrameIff(t: string)
    requires Trim(t) == t
    ensures IsStackFrame(t) <==> Begins(t, {"at ", "at\t"})
  {
    hide Trim;
    TrimStartOfTrimmed(t);
    BeginsIff(t, {"at ", "at\t"});
    assert StartsWithAny(t, {"at ", "at\t"}) <==> StartsWith(t, "at ") || StartsWith(t, "at\t");
  }

  lemma TrimStartOfTrimmed(t: string)
    requires Trim(t) == t
    ensures TrimStart(t) == t
  {
    TrimStartStops(t);
    TrimEndIsPrefix(TrimStart(t));
    if t != "" && IsWhite(t[0]) {
      ShorterStart(t);
    }
  }

  lemma {:induction false} ShorterStart(s: string)
    ensures |TrimStart(s)| <= |s| && (s != "" && IsWhite(s[0]) ==> |TrimStart(s)| < |s|)
  {
    if s != "" && IsWhite(s[0]) {
      ShorterStart(s[1..]);
    }
  }
}
