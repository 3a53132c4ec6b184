/**
 Repairing level tags whose escape bytes were lost: `[32minfo[39m]` becomes `[info]`.

 A left-to-right scanner, and the plain recursive rewriting it computes.
 */
module LogSanitize {
  import opened Common

  predicate IsParam(c: char) {
    IsDigit(c) || c == ';'
  }

  /** The end of a run of parameters, or of letters. */
  function SkipParams(s: string, i: nat): (j: nat)
    requires i <= |s|
    ensures i <= j <= |s| && (forall k | i <= k < j :: IsParam(s[k])) && (j < |s| ==> !IsParam(s[j]))
    decreases |s| - i
  {
    if i < |s| && IsParam(s[i]) then SkipParams(s, i + 1) else i
  }

  function SkipLetters(s: string, i: nat): (j: nat)
    requires i <= |s|
    ensures i <= j <= |s| && (forall k | i <= k < j :: IsAlpha(s[k])) && (j < |s| ==> !IsAlpha(s[j]))
    decreases |s| - i
  {
    if i < |s| && IsAlpha(s[i]) then SkipLetters(s, i + 1) else i
  }

  function LevelOf(word: string): Option<string> {
    if word == "trace" || word == "TRACE" then Some("trace")
    else if word == "debug" || word == "DEBUG" then Some("debug")
    else if word == "info" || word == "INFO" then Some("info")
    else if word == "warn" || word == "WARN" || word == "warning" || word == "WARNING" then Some("warn")
    else if word == "error" || word == "ERROR" then Some("error")
    else if word == "fatal" || word == "FATAL" then Some("fatal")
    else if word == "success" || word == "SUCCESS" then Some("success")
    else None
  }

  /** A tag at the front of a text: how long it is, and its level. */
  datatype Tag = Tag(length: nat, level: string)

  /** `try_parse_orphan_level_tag`: parameters, `m`, a level, `[`, parameters, `m]`. */
  function Parse(s: string): Option<Tag> {
    if s == "" || s[0] != '[' then None
    else
      var a := SkipParams(s, 1);
      if a == 1 || a == |s| || s[a] != 'm' then None
      else
        var b := SkipLetters(s, a + 1);
        var level := LevelOf(s[a + 1..b]);
        if b == a + 1 || level.None? || b == |s| || s[b] != '[' then None
        else
          var c := SkipParams(s, b + 1);
          if c == b + 1 || c == |s| || s[c] != 'm' || c + 1 == |s| || s[c + 1] != ']' then None
          else Some(Tag(c + 2, level.value))
  }

  method TryParseOrphanLevelTag(s: string) returns (r: Option<Tag>)
    ensures r == Parse(s)
  {
    hide LevelOf;
    if s == "" || s[0] != '[' {
      return None;
    }
    var i := ScanParams(s, 1);
    if i == 1 || i >= |s| || s[i] != 'm' {
      return None;
    }
    i := i + 1;
    var levelStart := i;
    while i < |s| && IsAlpha(s[i])
      invariant levelStart <= i <= |s| && SkipLetters(s, levelStart) == SkipLetters(s, i)
    {
      i := i + 1;
    }
    if i == levelStart {
      return None;
    }
    var level := LevelOf(s[levelStart..i]);
    if level.None? || i >= |s| || s[i] != '[' {
      return None;
    }
    i := i + 1;
    var resetStart := i;
    i := ScanParams(s, i);
    if i == resetStart || i >= |s| || s[i] != 'm' {
      return None;
    }
    i := i + 1;
    if i >= |s| || s[i] != ']' {
      return None;
    }
    return Some(Tag(i + 1, level.value));
  }

  method ScanParams(s: string, start: nat) returns (i: nat)
    requires start <= |s|
    ensures i == SkipParams(s, start)
  {
    i := start;
    while i < |s| && IsParam(s[i])
      invariant start <= i <= |s| && SkipParams(s, start) == SkipParams(s, i)
    {
      i := i + 1;
    }
  }

  lemma ParseLength(s: string)
    ensures Parse(s).Some? ==> 0 < Parse(s).value.length <= |s|
  {
    hide LevelOf;
  }

  /** `repair_orphan_ansi_level_tags`: the leftmost tag first, each replaced by its bare level. */
  function Repair(s: string): string
    decreases |s|
  {
    ParseLength(s);
    if s == "" then ""
    else
      match Parse(s)
      case Some(tag) => "[" + tag.level + "]" + Repair(s[tag.length..])
      case None => [s[0]] + Repair(s[1..])
  }

  lemma RepairAt(input: string, i: nat)
    requires i < |input|
    ensures match Parse(input[i..])
      case Some(tag) =>
        0 < tag.length <= |input| - i
        && Repair(input[i..]) == "[" + tag.level + "]" + Repair(input[i + tag.length..])
      case None => Repair(input[i..]) == [input[i]] + Repair(input[i + 1..])
  {
    hide Parse;
    var rest := input[i..];
    ParseLength(rest);
    if Parse(rest).Some? {
      assert rest[Parse(rest).value.length..] == input[i + Parse(rest).value.length..];
    } else {
      assert rest[1..] == input[i + 1..];
    }
  }

  lemma RepairOfNothing(input: string)
    ensures Repair(input[|input|..]) == "" && input[0..] == input
  {
  }

  method RepairOrphanTags(input: string) returns (out: string)
    ensures out == Repair(input)
  {
    hide Parse, Repair;
    out := "";
    RepairOfNothing(input);
    var i := 0;
    while i < |input|
      invariant i <= |input| && Repair(input) == out + Repair(input[i..])
    {
      RepairAt(input, i);
      var tag := TryParseOrphanLevelTag(input[i..]);
      if tag.Some? {
        out := out + ("[" + tag.value.level + "]");
        i := i + tag.value.length;
      } else {
        out := out + [input[i]];
        i := i + 1;
      }
    }
  }

  // ---------------------------------------------------------------- no tag survives

  /** No tag starts anywhere in the text. */
  ghost predicate TagFree(s: string) {
    forall i | 0 <= i < |s| :: Parse(s[i..]).None?
  }

  lemma {:induction false} SkipParamsSame(s: string, t: string, i: nat, n: nat)
    requires i <= n <= |s| && n <= |t| && s[..n] == t[..n] && SkipParams(s, i) < n
    ensures SkipParams(t, i) == SkipParams(s, i)
    decreases n - i
  {
    assert i < n ==> s[..n][i] == t[..n][i];
    if IsParam(s[i]) {
      SkipParamsSame(s, t, i + 1, n);
    }
  }

  lemma {:induction false} SkipLettersSame(s: string, t: string, i: nat, n: nat)
    requires i <= n <= |s| && n <= |t| && s[..n] == t[..n] && SkipLetters(s, i) < n
    ensures SkipLetters(t, i) == SkipLetters(s, i)
    decreases n - i
  {
    assert i < n ==> s[..n][i] == t[..n][i];
    if IsAlpha(s[i]) {
      SkipLettersSame(s, t, i + 1, n);
    }
  }

  lemma SameFront(s: string, t: string, n: nat)
    requires n <= |s| && n <= |t| && s[..n] == t[..n]
    ensures forall k | 0 <= k < n :: s[k] == t[k]
  {
    assert forall k | 0 <= k < n :: s[..n][k] == s[k] && t[..n][k] == t[k];
  }

  /** Whether a text starts with a tag depends on the tag's own characters only. */
  lemma ParsePrefix(s: string, t: string)
    requires Parse(s).Some? && Parse(s).value.length <= |t| && s[..Parse(s).value.length] == t[..Parse(s).value.length]
    ensures Parse(t) == Parse(s)
  {
    hide LevelOf;
    var n := Parse(s).value.length;
    ParseLength(s);
    SameFront(s, t, n);
    var a := SkipParams(s, 1);
    SkipParamsSame(s, t, 1, n);
    var b := SkipLetters(s, a + 1);
    SkipLettersSame(s, t, a + 1, n);
    assert s[a + 1..b] == t[a + 1..b];
    SkipParamsSame(s, t, b + 1, n);
  }

  /** Inside a tag every `[` is followed by a parameter. */
  lemma TagShape(s: string)
    ensures Parse(s).Some? ==>
      var n := Parse(s).value.length;
      n <= |s| && forall i | 0 <= i < n && s[i] == '[' :: i + 1 < n && IsParam(s[i + 1])
  {
    hide LevelOf;
  }

  lemma LevelShape(word: string)
    ensures LevelOf(word).Some? ==>
      LevelOf(word).value != "" && forall c | c in LevelOf(word).value :: IsAlpha(c)
  {
  }

  lemma ParsedLevel(s: string)
    ensures Parse(s).Some? ==> Parse(s).value.level != "" && forall c | c in Parse(s).value.level :: IsAlpha(c)
  {
    hide LevelOf;
    if Parse(s).Some? {
      var a := SkipParams(s, 1);
      LevelShape(s[a + 1..SkipLetters(s, a + 1)]);
    }
  }

  lemma RepairedTagFront(s: string)
    ensures Parse(s).Some? ==> |Repair(s)| > 1 && Repair(s)[0] == '[' && IsAlpha(Repair(s)[1])
  {
    hide Parse;
    ParseLength(s);
    ParsedLevel(s);
    if Parse(s).Some? {
      var level := Parse(s).value.level;
      assert ("[" + level + "]")[1] == level[0] && level[0] in level;
    }
  }

  /** A front of the output whose brackets are all followed by parameters was copied. */
  lemma {:induction false} CopiedFront(s: string, n: nat)
    requires n <= |Repair(s)|
    requires forall i | 0 <= i < n && Repair(s)[i] == '[' :: i + 1 < n && IsParam(Repair(s)[i + 1])
    ensures n <= |s| && s[..n] == Repair(s)[..n]
    decreases |s|
  {
    hide Parse;
    var r := Repair(s);
    ParseLength(s);
    RepairedTagFront(s);
    assert n > 0 ==> Parse(s).None?;
    if n > 0 {
      assert r[1..] == Repair(s[1..]);
      forall i | 0 <= i < n - 1 && r[1..][i] == '[' ensures i + 1 < n - 1 && IsParam(r[1..][i + 1]) {
        assert r[i + 1] == '[';
      }
      CopiedFront(s[1..], n - 1);
      assert s == [s[0]] + s[1..] && r == [r[0]] + r[1..];
    }
  }

  /** Where nothing parses, the scanner copies, and its output does not parse there either. */
  lemma NothingNewParses(s: string)
    requires s != "" && Parse(s).None?
    ensures Parse(Repair(s)).None?
  {
    hide Parse;
    var r := Repair(s);
    if Parse(r).Some? {
      ParseLength(r);
      TagShape(r);
      CopiedFront(s, Parse(r).value.length);
      ParsePrefix(r, s);
    }
  }

  lemma BareLevelIsNoTag(level: string, rest: string, i: nat)
    requires level != "" && (forall c | c in level :: IsAlpha(c)) && i < |level| + 2
    ensures Parse(("[" + level + "]" + rest)[i..]).None?
  {
    hide LevelOf;
    var s := "[" + level + "]" + rest;
    assert s[1] == level[0] && level[0] in level;
    assert 0 < i <= |level| ==> s[i] == level[i - 1] && level[i - 1] in level;
  }

  /** The output holds no tag at all. */
  lemma {:induction false} RepairLeavesNoTag(s: string)
    ensures TagFree(Repair(s))
    decreases |s|
  {
    hide Parse;
    if s != "" {
      ParseLength(s);
      ParsedLevel(s);
      var r := Repair(s);
      match Parse(s) {
        case Some(tag) =>
          var rest := Repair(s[tag.length..]);
          RepairLeavesNoTag(s[tag.length..]);
          forall i | 0 <= i < |r| ensures Parse(r[i..]).None? {
            if i < |tag.level| + 2 {
              BareLevelIsNoTag(tag.level, rest, i);
            } else {
              assert r[i..] == rest[i - (|tag.level| + 2)..];
            }
          }
        case None =>
          RepairLeavesNoTag(s[1..]);
          NothingNewParses(s);
          forall i | 0 <= i < |r| ensures Parse(r[i..]).None? {
            if i == 0 {
              assert r[0..] == r;
            } else {
              assert r[i..] == Repair(s[1..])[i - 1..];
            }
          }
      }
    }
  }

  /** A text is left alone exactly when it holds no tag. */
  lemma {:induction false} RepairFixedIff(s: string)
    ensures Repair(s) == s <==> TagFree(s)
    decreases |s|
  {
    hide Parse;
    if Repair(s) == s {
      RepairLeavesNoTag(s);
    }
    if TagFree(s) && s != "" {
      assert s[0..] == s;
      forall i | 0 <= i < |s[1..]| ensures Parse(s[1..][i..]).None? {
        assert s[1..][i..] == s[i + 1..];
      }
      RepairFixedIff(s[1..]);
      assert s == [s[0]] + s[1..];
    }
  }

  /** Repairing twice is repairing once, on every text. */
  lemma RepairIdempotent(s: string)
    ensures Repair(Repair(s)) == Repair(s)
  {
    hide TagFree;
    RepairLeavesNoTag(s);
    RepairFixedIff(Repair(s));
  }

  // ---------------------------------------------------------------- the grammar of a tag

  predicate AllParams(p: string) {
    p != "" && forall c | c in p :: IsParam(c)
  }

  predicate AllLetters(w: string) {
    w != "" && forall c | c in w :: IsAlpha(c)
  }

  /** `[`, parameters, `m`, a word, `[`, parameters, `m]`. */
  function Spelled(p: string, word: string, q: string): string {
    "[" + p + "m" + word + "[" + q + "m]"
  }

  lemma {:induction false} SkipAllParams(s: string, i: nat, j: nat)
    requires i <= j < |s| && (forall k | i <= k < j :: IsParam(s[k])) && !IsParam(s[j])
    ensures SkipParams(s, i) == j
    decreases j - i
  {
    if i < j {
      SkipAllParams(s, i + 1, j);
    }
  }

  lemma {:induction false} SkipAllLetters(s: string, i: nat, j: nat)
    requires i <= j < |s| && (forall k | i <= k < j :: IsAlpha(s[k])) && !IsAlpha(s[j])
    ensures SkipLetters(s, i) == j
    decreases j - i
  {
    if i < j {
      SkipAllLetters(s, i + 1, j);
    }
  }

  lemma ParamsAt(s: string, i: nat, j: nat)
    requires i <= j < |s| && AllParams(s[i..j]) && !IsParam(s[j])
    ensures i < j && SkipParams(s, i) == j
  {
    assert forall k | i <= k < j :: s[k] == s[i..j][k - i] && s[i..j][k - i] in s[i..j];
    SkipAllParams(s, i, j);
  }

  lemma LettersAt(s: string, i: nat, j: nat)
    requires i <= j < |s| && AllLetters(s[i..j]) && !IsAlpha(s[j])
    ensures i < j && SkipLetters(s, i) == j
  {
    assert forall k | i <= k < j :: s[k] == s[i..j][k - i] && s[i..j][k - i] in s[i..j];
    SkipAllLetters(s, i, j);
  }

  /** Where the parts of a spelled tag stand. */
  lemma SpelledAt(p: string, word: string, q: string, rest: string)
    ensures var s := Spelled(p, word, q) + rest;
      var a := 1 + |p|;
      var b := a + 1 + |word|;
      var c := b + 1 + |q|;
      |Spelled(p, word, q)| == c + 2 <= |s| && s[0] == '[' && s[a] == 'm' && s[b] == '[' && s[c] == 'm' && s[c + 1] == ']'
      && s[1..a] == p && s[a + 1..b] == word && s[b + 1..c] == q
  {
  }

  /** Every text that begins with a tag of the grammar parses, with the level its word names. */
  lemma SpelledParses(p: string, word: string, q: string, rest: string)
    requires AllParams(p) && AllLetters(word) && AllParams(q) && LevelOf(word).Some?
    ensures Parse(Spelled(p, word, q) + rest) == Some(Tag(|Spelled(p, word, q)|, LevelOf(word).value))
  {
    hide LevelOf, Spelled, AllParams, AllLetters, SkipParams, SkipLetters;
    SpelledAt(p, word, q, rest);
    var s := Spelled(p, word, q) + rest;
    var a := 1 + |p|;
    var b := a + 1 + |word|;
    var c := b + 1 + |q|;
    ParamsAt(s, 1, a);
    LettersAt(s, a + 1, b);
    ParamsAt(s, b + 1, c);
  }

  /** And whatever parses begins with such a tag. */
  lemma ParsedIsSpelled(s: string) returns (p: string, word: string, q: string)
    requires Parse(s).Some?
    ensures AllParams(p) && AllLetters(word) && AllParams(q) && LevelOf(word) == Some(Parse(s).value.level)
    ensures Parse(s).value.length <= |s| && s[..Parse(s).value.length] == Spelled(p, word, q)
  {
    hide LevelOf;
    var a := SkipParams(s, 1);
    var b := SkipLetters(s, a + 1);
    var c := SkipParams(s, b + 1);
    p, word, q := s[1..a], s[a + 1..b], s[b + 1..c];
    ThreePieces(s, a, b, c);
    assert Spelled(p, word, q) == ("[" + p + "m") + (word + "[") + (q + "m]");
  }

  lemma ThreePieces(s: string, a: nat, b: nat, c: nat)
    requires 1 <= a < b < c && c + 1 < |s|
    requires s[0] == '[' && s[a] == 'm' && s[b] == '[' && s[c] == 'm' && s[c + 1] == ']'
    ensures s[..c + 2] == ("[" + s[1..a] + "m") + (s[a + 1..b] + "[") + (s[b + 1..c] + "m]")
  {
    assert s[..a + 1] == "[" + s[1..a] + "m";
    assert s[a + 1..b + 1] == s[a + 1..b] + "[";
    assert s[b + 1..c + 2] == s[b + 1..c] + "m]";
    assert s[..c + 2] == s[..a + 1] + s[a + 1..b + 1] + s[b + 1..c + 2];
  }

  // ---------------------------------------------------------------- levels

  function Upper(s: string): string {
    seq(|s|, i requires 0 <= i < |s| => if 'a' <= s[i] <= 'z' then (s[i] as int - 32) as char else s[i])
  }

  const LEVELS: set<string> := {"trace", "debug", "info", "warn", "error", "fatal", "success"}

  /** A word names a level if it is that level, or "warning", in lower or in upper case throughout. */
  lemma LevelOfIff(word: string, level: string)
    ensures LevelOf(word) == Some(level) <==>
      level in LEVELS
      && (word == level || word == Upper(level) || (level == "warn" && (word == "warning" || word == "WARNING")))
  {
    hide Upper;
    UpperLevels();
  }

  lemma UpperLevels()
    ensures Upper("trace") == "TRACE" && Upper("debug") == "DEBUG" && Upper("info") == "INFO" && Upper("warn") == "WARN"
    ensures Upper("error") == "ERROR" && Upper("fatal") == "FATAL" && Upper("success") == "SUCCESS"
  {
    assert Upper("trace") == "TRACE" && Upper("debug") == "DEBUG" && Upper("info") == "INFO" && Upper("warn") == "WARN";
    assert Upper("error") == "ERROR" && Upper("fatal") == "FATAL" && Upper("success") == "SUCCESS";
  }
}
