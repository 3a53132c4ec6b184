/**
 Dropping the console noise of the QQ host: an automaton over lines that swallows JSON bodies
 and stack traces after their headers.
 */
module ConsoleNoise {
  import opened Common

  // ---------------------------------------------------------------- what a single line looks like

  predicate ContainsAny(line: string, keys: set<string>) {
    exists k | k in keys :: Contains(line, k)
  }

  predicate StartsWithAny(line: string, keys: set<string>) {
    exists k | k in keys :: StartsWith(line, k)
  }

  /** Opening braces minus closing ones. */
  function BraceDelta(line: string): int {
    if line == "" then 0
    else
      var c := line[|line| - 1];
      BraceDelta(line[..|line| - 1]) + if c == '{' then 1 else if c == '}' then -1 else 0
  }

  method CountBraces(line: string) returns (d: int)
    ensures d == BraceDelta(line)
  {
    d := 0;
    for i := 0 to |line|
      invariant d == BraceDelta(line[..i])
    {
      assert line[..i + 1][..i] == line[..i];
      if line[i] == '{' {
        d := d + 1;
      } else if line[i] == '}' {
        d := d - 1;
      }
    }
    assert line[..|line|] == line;
  }

  /** The end of a run of digits. */
  function SkipDigits(s: string, i: nat): (j: nat)
    requires i <= |s|
    ensures i <= j <= |s| && (forall k | i <= k < j :: IsDigit(s[k])) && (j < |s| ==> !IsDigit(s[j]))
    decreases |s| - i
  {
    if i < |s| && IsDigit(s[i]) then SkipDigits(s, i + 1) else i
  }

  predicate IsStackFrame(line: string) {
    var t := TrimStart(line);
    StartsWith(t, "at ") || StartsWith(t, "at\t")
  }

  predicate IsHotUpdateHeader(line: string) {
    ContainsAny(line, {"[QQ hotUpdate]", "hotUpdateApi ", "startAutoUpdate"})
  }

  predicate IsElectronHeader(line: string) {
    ContainsAny(line, {"No handler registered for 'get-remote-win'", "Error occurred in handler for 'get-remote-win'",
                       "node:electron/js2c/browser_init"})
  }

  predicate IsJsonFragment(line: string) {
    var t := Trim(line);
    t == "{" || t == "}" || t == "},"
    || StartsWithAny(t, {"\"baseVersion\"", "\"curVersion\"", "\"prevVersion\"", "\"onErrorVersions\"", "\"buildId\"",
                         "\"unzipRetryCount\"", "\"updateInfo\"", "\"needUpdate\""})
  }

  predicate IsOrphanStack(line: string) {
    var t := Trim(line);
    StartsWith(t, "at ")
    && ContainsAny(t, {"node:electron", "node:events", "Session.emit", "get-remote-win", "browser_init", "js2c/"})
  }

  predicate IsJsLoaded(line: string) {
    var t := Trim(line);
    |t| >= 11 && IsDigit(t[0]) && t[SkipDigits(t, 0)..] == " js loaded"
  }

  predicate IsGpuNoise(line: string) {
    ContainsAny(line, {"Exiting GPU process", "viz_main_impl", "gles2_cmd_decoder", "gl_utils.cc",
                       "GPU stall due to ReadPixels", "enable-unsafe-swiftshader", "software WebGL has been deprecated",
                       "GroupMarkerNotSet"})
  }

  predicate IsStartupNoise(line: string) {
    ContainsAny(line, {"version_config_filename", "app_package_filename", "config_build_id", "config_base_version",
                       "config_current_version", "app_build_version", "not mini app", "[preload] succeeded",
                       "resourcesPath:"})
  }

  predicate IsBuglyNoise(line: string) {
    var t := Trim(line);
    t in {"SetLogger", "fatalSetup", "InitBuglyManager", "UploadBugly", "registBugly", "regist native handler"}
    || StartsWithAny(t, {"setParam/", "StartWithOptions ", "PostDelayedTask ", "GetDllPath:", "pub_key_path:",
                         "BuglyManager/", "registBugly/"})
    || ContainsAny(line, {"linux-bugly", "BuglyManager", "BuglyService", "NativeCrashHandler", "InitBuglyManager",
                          "UploadBugly", "registBugly", "registSignalHandler", "regist native handler", "init bugly",
                          "rqd_record", "getCrashDetailBeanFromRecord", "uploadCrashEvent", "get null crashDetailBean"})
  }

  predicate IsDbusNoise(line: string) {
    ContainsAny(line, {"Failed to connect to the bus", "dbus/bus.cc", "dbus/object_proxy.cc", "/tmp/dbus-"})
  }

  predicate IsHotUpdateNoise(line: string) {
    IsHotUpdateHeader(line) || Contains(line, "app \U{542F}\U{52A8}\U{5206}\U{754C}\U{7EBF}")
  }

  predicate IsFrameNoise(line: string) {
    ContainsAny(line, {"DroppedFrame(", "LongTask("})
  }

  predicate IsChromiumNoise(line: string) {
    ContainsAny(line, {"Crashpad", "crashpad/", "file_io_posix.cc", "file_io_win.cc"})
    || (Contains(line, ":ERROR:")
        && ContainsAny(line, {"third_party/", "components/", "content/", "chrome/", "gpu/", "viz/"}))
  }

  /** `235,0665,...`: two numbers, each followed by a comma. */
  predicate IsBuglyNumbered(line: string) {
    |line| >= 5 && IsDigit(line[0])
    && var i := SkipDigits(line, 0);
       i < |line| && line[i] == ',' && i + 1 < |line| && IsDigit(line[i + 1])
       && var j := SkipDigits(line, i + 1);
          j < |line| && line[j] == ','
  }

  method LooksLikeBuglyNumberedLine(line: string) returns (r: bool)
    ensures r == IsBuglyNumbered(line)
  {
    if |line| < 5 || !IsDigit(line[0]) {
      return false;
    }
    var i := ScanDigits(line, 0);
    if i >= |line| || line[i] != ',' {
      return false;
    }
    i := i + 1;
    if i >= |line| || !IsDigit(line[i]) {
      return false;
    }
    i := ScanDigits(line, i);
    return i < |line| && line[i] == ',';
  }

  method ScanDigits(s: string, start: nat) returns (i: nat)
    requires start <= |s|
    ensures i == SkipDigits(s, start)
  {
    i := start;
    while i < |s| && IsDigit(s[i])
      invariant start <= i <= |s| && SkipDigits(s, start) == SkipDigits(s, i)
    {
      i := i + 1;
    }
  }

  predicate IsCrashDump(line: string) {
    var t := Trim(line);
    Contains(t, "Read map line:")
    || (StartsWith(t, "$$") && ContainsAny(t, {" pc ", "\tpc "}))
    || ContainsAny(t, {"Record EupInfo", "EupInfo has been recorded", "Record native key-value", "Native key-value list",
                       "Record native log", "Native log has", "native_record_lock", "/crash_files", "crash_files/"})
    || (IsBuglyNumbered(t)
        && ContainsAny(t, {"Try to unlock file", "Successfully unlock file", "Successfully lock file", "Try to lock file"}))
  }

  /** `is_noise_stateless`. */
  predicate IsNoiseLine(line: string) {
    line == "" || IsJsLoaded(line) || IsGpuNoise(line) || IsStartupNoise(line) || IsBuglyNoise(line) || IsDbusNoise(line)
    || IsElectronHeader(line) || IsHotUpdateNoise(line) || IsFrameNoise(line) || IsChromiumNoise(line) || IsCrashDump(line)
  }

  // ---------------------------------------------------------------- the automaton

  /** The depth of the JSON body being swallowed, and whether a stack trace is. */
  datatype Mode = Mode(depth: int, dropStack: bool)

  const FRESH: Mode := Mode(0, false)

  predicate Balanced(m: Mode) {
    m.depth >= 0
  }

  /** The depth once a line may have opened a body.  The source also sets it to one for a lone
      `{`, a case its first test already takes. */
  function OpenedDepth(depth: int, t: string): int {
    if BraceDelta(t) > 0 then BraceDelta(t) else depth
  }

  /** Outside a body and a trace: whether the line is noise, and what it opens. */
  function Judge(depth: int, t: string): (bool, Mode) {
    if IsNoiseLine(t) then
      (true, Mode(if IsHotUpdateHeader(t) || t == "{" then OpenedDepth(depth, t) else depth, IsElectronHeader(t)))
    else if IsJsonFragment(t) then (true, Mode(OpenedDepth(depth, t), false))
    else (IsOrphanStack(t), Mode(depth, false))
  }

  /** `is_noise`, as a step of the automaton. */
  function Step(m: Mode, line: string): (bool, Mode) {
    var t := Trim(line);
    if t == "" then (m.dropStack || m.depth > 0, m)
    else if m.depth > 0 then
      var d := m.depth + BraceDelta(t);
      (true, m.(depth := if d < 0 then 0 else d))
    else if m.dropStack && IsStackFrame(t) then (true, m)
    else Judge(m.depth, t)
  }

  class QqConsoleNoiseFilter {
    var jsonDepth: int
    var dropStack: bool

    ghost function State(): Mode
      reads this
    {
      Mode(jsonDepth, dropStack)
    }

    constructor ()
      ensures State() == FRESH
    {
      jsonDepth, dropStack := 0, false;
    }

    method OpenBody(t: string)
      modifies this`jsonDepth
      ensures jsonDepth == OpenedDepth(old(jsonDepth), t)
    {
      var d := CountBraces(t);
      if d > 0 {
        jsonDepth := d;
      }
    }

    /** `is_noise`: whether the line is to be dropped. */
    method IsNoise(line: string) returns (noise: bool)
      modifies this
      ensures (noise, State()) == Step(old(State()), line)
    {
      hide IsNoiseLine, IsHotUpdateHeader, IsElectronHeader, IsJsonFragment, IsOrphanStack, IsStackFrame, Trim, BraceDelta;
      var t := Trim(line);
      if t == "" {
        return dropStack || jsonDepth > 0;
      }
      if jsonDepth > 0 {
        var d := CountBraces(t);
        jsonDepth := jsonDepth + d;
        if jsonDepth < 0 {
          jsonDepth := 0;
        }
        return true;
      }
      if dropStack {
        if IsStackFrame(t) {
          return true;
        }
        dropStack := false;
      }
      if IsNoiseLine(t) {
        if IsHotUpdateHeader(t) || t == "{" {
          OpenBody(t);
        }
        if IsElectronHeader(t) {
          dropStack := true;
        }
        return true;
      }
      if IsJsonFragment(t) {
        OpenBody(t);
        return true;
      }
      return IsOrphanStack(t);
    }
  }

  // ---------------------------------------------------------------- filtering a whole log

  /** The lines a filter keeps, and the state it ends in. */
  function Filter(m: Mode, lines: seq<string>): (seq<string>, Mode)
    decreases |lines|
  {
    if lines == [] then ([], m)
    else
      var (noise, next) := Step(m, lines[0]);
      var (kept, last) := Filter(next, lines[1..]);
      (if noise then kept else [lines[0]] + kept, last)
  }

  /** The depth never becomes negative. */
  lemma StepBalanced(m: Mode, line: string)
    requires Balanced(m)
    ensures Balanced(Step(m, line).1)
  {
    hide IsNoiseLine, IsHotUpdateHeader, IsElectronHeader, IsJsonFragment, IsOrphanStack, IsStackFrame, Trim;
  }

  /** A line is kept only outside bodies and traces, and a filter that keeps a line is as good as
      new; a new filter keeps that line too. */
  lemma KeptMeansFresh(m: Mode, line: string)
    requires Balanced(m) && !Step(m, line).0
    ensures Step(m, line).1 == FRESH && Step(FRESH, line) == (false, FRESH)
  {
    hide IsNoiseLine, IsHotUpdateHeader, IsElectronHeader, IsJsonFragment, IsOrphanStack, IsStackFrame, Trim, BraceDelta;
  }

  lemma {:induction false} FilterBalanced(m: Mode, lines: seq<string>)
    requires Balanced(m)
    ensures Balanced(Filter(m, lines).1)
    decreases |lines|
  {
    hide Step;
    if lines != [] {
      StepBalanced(m, lines[0]);
      FilterBalanced(Step(m, lines[0]).1, lines[1..]);
    }
  }

  /** A fresh filter keeps every line that another one kept, from whatever state it started. */
  lemma {:induction false} KeptAreKeptAgain(m: Mode, lines: seq<string>)
    requires Balanced(m)
    ensures Filter(FRESH, Filter(m, lines).0) == (Filter(m, lines).0, FRESH)
    decreases |lines|
  {
    hide Step;
    if lines != [] {
      var (noise, next) := Step(m, lines[0]);
      StepBalanced(m, lines[0]);
      KeptAreKeptAgain(next, lines[1..]);
      if !noise {
        KeptMeansFresh(m, lines[0]);
        var kept := Filter(next, lines[1..]).0;
        assert ([lines[0]] + kept)[1..] == kept;
      }
    }
  }

  /** Filtering is idempotent: a second pass by a new filter drops nothing more. */
  lemma FilterIdempotent(lines: seq<string>)
    ensures Filter(FRESH, Filter(FRESH, lines).0).0 == Filter(FRESH, lines).0
  {
    KeptAreKeptAgain(FRESH, lines);
  }

  // ---------------------------------------------------------------- what is dropped

  /** A line that is noise by itself is dropped in every state. */
  lemma NoiseIsDropped(m: Mode, line: string)
    requires Balanced(m) && Trim(line) != "" && IsNoiseLine(Trim(line))
    ensures Step(m, line).0
  {
    hide IsNoiseLine, IsHotUpdateHeader, IsElectronHeader, IsJsonFragment, IsOrphanStack, IsStackFrame, Trim;
  }

  /** The body that a line opens stays open over these lines. */
  predicate StaysOpen(depth: int, lines: seq<string>)
    decreases |lines|
  {
    depth > 0 && (lines != [] ==> StaysOpen(depth + BraceDelta(Trim(lines[0])), lines[1..]))
  }

  /** Nothing inside a body is kept, whatever its lines say. */
  lemma {:induction false} BodyIsSwallowed(m: Mode, lines: seq<string>)
    requires StaysOpen(m.depth, lines)
    ensures Filter(m, lines).0 == [] && Filter(m, lines).1.dropStack == m.dropStack
    decreases |lines|
  {
    hide Judge, Trim, BraceDelta, IsStackFrame;
    if lines != [] {
      var t := Trim(lines[0]);
      BlankHasNoBraces(t);
      assert StaysOpen(m.depth + BraceDelta(t), lines[1..]) && m.depth + BraceDelta(t) > 0;
      assert Step(m, lines[0]) == (true, m.(depth := m.depth + BraceDelta(t)));
      BodyIsSwallowed(Step(m, lines[0]).1, lines[1..]);
    }
  }

  lemma BlankHasNoBraces(t: string)
    ensures t == "" ==> BraceDelta(t) == 0
  {
  }

  /** After a header with a stack trace, all its frames and blank lines go, up to the first other line. */
  lemma {:induction false} StackIsSwallowed(lines: seq<string>)
    requires forall l | l in lines :: Trim(l) == "" || IsStackFrame(Trim(l))
    ensures Filter(Mode(0, true), lines) == ([], Mode(0, true))
    decreases |lines|
  {
    hide Judge, Trim, BraceDelta, IsStackFrame;
    if lines != [] {
      assert lines[0] in lines;
      assert Step(Mode(0, true), lines[0]) == (true, Mode(0, true));
      StackIsSwallowed(lines[1..]);
    }
  }
}
