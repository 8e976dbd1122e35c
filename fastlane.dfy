/** Running a deploy lane: the lane a version bump selects, the version scraped
    from the lines `fastlane` prints, and the result the run ends with. */
module Fastlane {
  import opened Wrappers
  import opened Text
  import opened Env
  import GlobalConfig
  import ProjectConfig
  import Templates

  datatype FastlaneError =
    | CommandFailed(message: string)
    | Io(reason: string)
    | VersionParseFailed

  /** The `Display` text of a fastlane error. */
  function Describe(e: FastlaneError): string {
    match e
    case CommandFailed(m) => "Fastlane command failed: " + m
    case Io(m) => "IO error: " + m
    case VersionParseFailed => "Could not parse version from output"
  }

  /** What a run needs: the credentials (key path already `~`-expanded) and the project. */
  datatype Fastlane = Fastlane(keyId: string, issuerId: string, keyPath: string, iosPath: string, scheme: string)

  /** `Fastlane::new`. */
  function New(g: GlobalConfig.Config, p: ProjectConfig.Config, expandTilde: string -> string): (f: Fastlane)
    ensures f.keyPath == expandTilde(g.apple.keyPath) && f.iosPath == p.project.iosPath
    ensures f.keyId == g.apple.keyId && f.issuerId == g.apple.issuerId && f.scheme == p.project.scheme
  {
    Fastlane(g.apple.keyId, g.apple.issuerId, expandTilde(g.apple.keyPath), p.project.iosPath, p.project.scheme)
  }

  // ---------------------------------------------------------------- lanes

  /** The lane a version bump selects. */
  function Lane(versionBump: Option<string>): string {
    match versionBump
    case Some("patch") => "beta_patch"
    case Some("minor") => "beta_minor"
    case _ => "beta"
  }

  /** `patch` and `minor` select their own lanes; anything else, `None` included, selects
      `beta`. Whatever the selection, the generated Fastfile defines that lane. */
  lemma LaneDefined(versionBump: Option<string>, scheme: string)
    ensures versionBump == Some("patch") ==> Lane(versionBump) == "beta_patch"
    ensures versionBump == Some("minor") ==> Lane(versionBump) == "beta_minor"
    ensures versionBump != Some("patch") && versionBump != Some("minor") ==> Lane(versionBump) == "beta"
    ensures Contains(Templates.GenerateFastfile(scheme), Templates.LaneHeader(Lane(versionBump)))
  {
    Templates.DefinesLanes(scheme);
  }

  const Timeout := "180"

  /** `fastlane <lane>` in the project directory, with the credentials in its environment. */
  function DeployCommand(f: Fastlane, versionBump: Option<string>): Command {
    Command("fastlane", [Lane(versionBump)], Some(f.iosPath), [
      ("APP_STORE_CONNECT_API_KEY_KEY_ID", f.keyId),
      ("APP_STORE_CONNECT_API_KEY_ISSUER_ID", f.issuerId),
      ("APP_STORE_CONNECT_API_KEY_KEY_FILEPATH", f.keyPath),
      ("FASTLANE_XCODEBUILD_SETTINGS_TIMEOUT", Timeout)])
  }

  // ---------------------------------------------------------------- version matcher

  // `extract_version` matches `(\d+\.\d+\.\d+)(?:\s*\((\d+)\))?` leftmost-first, with
  // ASCII `\d` and `\s`. Greedy runs of digits can only end where a non-digit follows,
  // so the matcher below takes maximal runs and never needs to backtrack.

  /** Index just past the run of characters satisfying `p` that starts at `i`. */
  function RunEnd(s: string, i: nat, p: char -> bool): (e: nat)
    requires i <= |s|
    ensures i <= e <= |s|
    ensures forall k | i <= k < e :: p(s[k])
    ensures e < |s| ==> !p(s[e])
    decreases |s| - i
  {
    if i < |s| && p(s[i]) then RunEnd(s, i + 1, p) else i
  }

  /** A run covers every stretch of characters satisfying `p` from `i`. */
  lemma {:induction false} RunEndAtLeast(s: string, i: nat, p: char -> bool, e: nat)
    requires i <= e <= |s|
    requires forall k | i <= k < e :: p(s[k])
    ensures RunEnd(s, i, p) >= e
    decreases e - i
  {
    if i < e {
      RunEndAtLeast(s, i + 1, p, e);
    }
  }

  /** A run is determined by where it stops. */
  lemma {:induction false} RunEndIs(s: string, i: nat, p: char -> bool, e: nat)
    requires i <= e <= |s|
    requires forall k | i <= k < e :: p(s[k])
    requires e < |s| ==> !p(s[e])
    ensures RunEnd(s, i, p) == e
    decreases e - i
  {
    if i < e {
      RunEndIs(s, i + 1, p, e);
    }
  }

  /** The end of the `\d+\.\d+\.\d+` that starts at `i`, its last run taken whole. */
  function TripleEnd(s: string, i: nat): Option<nat>
    requires i <= |s|
  {
    var a := RunEnd(s, i, IsDigit);
    if a == i || a == |s| || s[a] != '.' then None
    else
      var b := RunEnd(s, a + 1, IsDigit);
      if b == a + 1 || b == |s| || s[b] != '.' then None
      else
        var c := RunEnd(s, b + 1, IsDigit);
        if c == b + 1 then None else Some(c)
  }

  /** The digits of `\s*\((\d+)\)` at `j`, if that group matches there. */
  function BuildAt(s: string, j: nat): Option<string>
    requires j <= |s|
  {
    var k := RunEnd(s, j, IsAsciiWhitespace);
    if k < |s| && s[k] == '(' then
      var e := RunEnd(s, k + 1, IsDigit);
      if k + 1 < e < |s| && s[e] == ')' then Some(s[k + 1..e]) else None
    else None
  }

  /** What `format!` makes of the two capture groups. */
  function Format(version: string, build: Option<string>): string {
    match build
    case None => version
    case Some(b) => version + " (" + b + ")"
  }

  /** The first match at or after `i`. */
  function ExtractFrom(s: string, i: nat): Option<string>
    requires i <= |s|
    decreases |s| - i
  {
    match TripleEnd(s, i)
    case Some(j) => Some(Format(s[i..j], BuildAt(s, j)))
    case None => if i == |s| then None else ExtractFrom(s, i + 1)
  }

  /** `extract_version`. */
  function ExtractVersion(line: string): Option<string> {
    ExtractFrom(line, 0)
  }

  // The reference the matcher is proved against.

  /** `t` reads `D+.D+.D+` with its two dots at `p` and `q`. */
  predicate TripleWithDots(t: string, p: nat, q: nat) {
    && 0 < p && p + 1 < q && q + 1 < |t|
    && t[p] == '.' && t[q] == '.'
    && (forall k | 0 <= k < |t| && k != p && k != q :: IsDigit(t[k]))
  }

  /** `t` is three non-empty runs of ASCII digits joined by two dots. */
  ghost predicate IsTriple(t: string) {
    exists p: nat, q: nat :: TripleWithDots(t, p, q)
  }

  /** `s[j..]` starts with ASCII whitespace up to `k`, then `(`, digits up to `e`, then `)`. */
  predicate BuildSuffixAt(s: string, j: nat, k: nat, e: nat) {
    && j <= k && k + 1 < e < |s|
    && (forall m | j <= m < k :: IsAsciiWhitespace(s[m]))
    && s[k] == '('
    && (forall m | k < m < e :: IsDigit(s[m]))
    && s[e] == ')'
  }

  /** A `D+.D+.D+` starting at `i` has its dots where the digit runs from `i` stop. */
  lemma TripleRuns(s: string, i: nat, j: nat, p: nat, q: nat)
    requires i <= j <= |s| && TripleWithDots(s[i..j], p, q)
    ensures RunEnd(s, i, IsDigit) == i + p
    ensures RunEnd(s, i + p + 1, IsDigit) == i + q
    ensures RunEnd(s, i + q + 1, IsDigit) >= j
  {
    var t := s[i..j];
    assert forall k | 0 <= k < |t| :: t[k] == s[i + k];
    RunEndIs(s, i, IsDigit, i + p);
    RunEndIs(s, i + p + 1, IsDigit, i + q);
    RunEndAtLeast(s, i + q + 1, IsDigit, j);
  }

  /** A `D+.D+.D+` at `i` is seen by `TripleEnd`, which reports where its last run ends. */
  lemma TripleFound(s: string, i: nat, j: nat, p: nat, q: nat)
    requires i <= j <= |s| && TripleWithDots(s[i..j], p, q)
    ensures TripleEnd(s, i) == Some(RunEnd(s, i + q + 1, IsDigit))
  {
    TripleRuns(s, i, j, p, q);
    assert s[i..j][p] == s[i + p] && s[i..j][q] == s[i + q];
  }

  /** What `TripleEnd` reports is a `D+.D+.D+`. */
  lemma TripleEndIsTriple(s: string, i: nat)
    requires i <= |s| && TripleEnd(s, i).Some?
    ensures i < TripleEnd(s, i).value <= |s| && IsTriple(s[i..TripleEnd(s, i).value])
  {
    var a := RunEnd(s, i, IsDigit);
    var b := RunEnd(s, a + 1, IsDigit);
    var c := RunEnd(s, b + 1, IsDigit);
    var t := s[i..c];
    assert forall k | 0 <= k < |t| :: t[k] == s[i + k];
    assert TripleWithDots(t, a - i, b - i);
  }

  /** `TripleEnd` finds the longest `D+.D+.D+` starting at `i`, and only fails when there is none. */
  lemma TripleEndSpec(s: string, i: nat)
    requires i <= |s|
    ensures TripleEnd(s, i).None? ==> forall j | i <= j <= |s| :: !IsTriple(s[i..j])
    ensures TripleEnd(s, i).Some? ==>
              var j := TripleEnd(s, i).value;
              && i < j <= |s| && IsTriple(s[i..j])
              && forall j' | j < j' <= |s| :: !IsTriple(s[i..j'])
  {
    if TripleEnd(s, i).Some? {
      TripleEndIsTriple(s, i);
    }
    forall j | i <= j <= |s| && IsTriple(s[i..j])
      ensures TripleEnd(s, i).Some? && j <= TripleEnd(s, i).value
    {
      var p: nat, q: nat :| TripleWithDots(s[i..j], p, q);
      TripleFound(s, i, j, p, q);
      TripleRuns(s, i, j, p, q);
    }
  }

  /** `BuildAt` finds the group exactly when `s[j..]` starts with it. */
  lemma BuildAtSpec(s: string, j: nat)
    requires j <= |s|
    ensures BuildAt(s, j).Some? ==> exists k: nat, e: nat :: BuildSuffixAt(s, j, k, e) && BuildAt(s, j).value == s[k + 1..e]
    ensures BuildAt(s, j).None? ==> forall k: nat, e: nat :: !BuildSuffixAt(s, j, k, e)
  {
    forall k: nat, e: nat | BuildSuffixAt(s, j, k, e)
      ensures BuildAt(s, j) == Some(s[k + 1..e])
    {
      RunEndIs(s, j, IsAsciiWhitespace, k);
      RunEndIs(s, k + 1, IsDigit, e);
    }
    var k := RunEnd(s, j, IsAsciiWhitespace);
    if BuildAt(s, j).Some? {
      assert BuildSuffixAt(s, j, k, RunEnd(s, k + 1, IsDigit));
    }
  }

  /** A triple starts with a digit. */
  lemma TripleStartsWithDigit(s: string, i: nat, j: nat)
    requires i <= j <= |s| && IsTriple(s[i..j])
    ensures i < |s| && IsDigit(s[i])
  {
    var p: nat, q: nat :| TripleWithDots(s[i..j], p, q);
    assert s[i..j][0] == s[i];
  }

  /** From `i` on, `ExtractFrom` finds nothing exactly when no triple starts at or after `i`. */
  lemma {:induction false} ExtractFromNone(s: string, i: nat)
    requires i <= |s|
    ensures ExtractFrom(s, i).None? <==> forall i', j | i <= i' <= j <= |s| :: !IsTriple(s[i'..j])
    decreases |s| - i
  {
    TripleEndSpec(s, i);
    if TripleEnd(s, i).None? && i < |s| {
      ExtractFromNone(s, i + 1);
    }
  }

  /** From `i` on, `ExtractFrom` reports the first triple start and its longest triple. */
  lemma {:induction false} ExtractFromFirst(s: string, i: nat, i0: nat, j0: nat)
    requires i <= i0 < j0 <= |s| && IsTriple(s[i0..j0])
    requires forall i', j | i <= i' < i0 && i' <= j <= |s| :: !IsTriple(s[i'..j])
    requires forall j | j0 < j <= |s| :: !IsTriple(s[i0..j])
    ensures ExtractFrom(s, i) == Some(Format(s[i0..j0], BuildAt(s, j0)))
    decreases |s| - i
  {
    TripleEndSpec(s, i);
    if i < i0 {
      ExtractFromFirst(s, i + 1, i0, j0);
    } else {
      assert TripleEnd(s, i) == Some(j0);
    }
  }

  /** `extract_version` returns `None` exactly when no part of the line reads `D+.D+.D+`. */
  lemma ExtractNoneIff(line: string)
    ensures ExtractVersion(line).None? <==> forall i, j | 0 <= i <= j <= |line| :: !IsTriple(line[i..j])
  {
    ExtractFromNone(line, 0);
  }

  /** On a match, `extract_version` gives the leftmost `D+.D+.D+`, its last run taken
      whole, followed by ` (B)` with exactly one space when `\s*(B)` follows it. */
  lemma ExtractLeftmost(line: string, i: nat, j: nat)
    requires i < j <= |line| && IsTriple(line[i..j])
    requires forall i', j' | 0 <= i' < i && i' <= j' <= |line| :: !IsTriple(line[i'..j'])
    requires forall j' | j < j' <= |line| :: !IsTriple(line[i..j'])
    ensures ExtractVersion(line) == Some(Format(line[i..j], BuildAt(line, j)))
    ensures BuildAt(line, j).Some? ==>
              exists k: nat, e: nat :: BuildSuffixAt(line, j, k, e) && ExtractVersion(line).value == line[i..j] + " (" + line[k + 1..e] + ")"
    ensures BuildAt(line, j).None? ==> ExtractVersion(line).value == line[i..j]
  {
    ExtractFromFirst(line, 0, i, j);
    BuildAtSpec(line, j);
  }

  /** Characters that cannot start a triple are passed over. */
  lemma {:induction false} SkipNonDigits(s: string, i: nat, k: nat)
    requires i <= k <= |s|
    requires forall m | i <= m < k :: !IsDigit(s[m])
    ensures ExtractFrom(s, i) == ExtractFrom(s, k)
    decreases k - i
  {
    if i < k {
      assert RunEnd(s, i, IsDigit) == i;
      SkipNonDigits(s, i + 1, k);
    }
  }

  /** A triple at `i` that is not followed by a digit is the one `TripleEnd` finds. */
  lemma TripleEndAt(s: string, i: nat, j: nat)
    requires i <= j <= |s| && IsTriple(s[i..j])
    requires j < |s| ==> !IsDigit(s[j])
    ensures TripleEnd(s, i) == Some(j)
  {
    var p: nat, q: nat :| TripleWithDots(s[i..j], p, q);
    TripleRuns(s, i, j, p, q);
    assert s[i..j][p] == s[i + p] && s[i..j][q] == s[i + q];
  }

  /** Where `s[j..]` starts with `\s*(digits)`, `BuildAt` gives those digits. */
  lemma BuildAtIs(s: string, j: nat, k: nat, e: nat)
    requires BuildSuffixAt(s, j, k, e)
    ensures BuildAt(s, j) == Some(s[k + 1..e])
  {
    RunEndIs(s, j, IsAsciiWhitespace, k);
    RunEndIs(s, k + 1, IsDigit, e);
  }

  /** Text without digits up to `i`, a triple from `i` to `j`, then a build group
      from `j` to `e`: the match is the triple with that build. */
  lemma ExtractAt(s: string, i: nat, j: nat, k: nat, e: nat)
    requires i <= j && BuildSuffixAt(s, j, k, e)
    requires forall m | 0 <= m < i :: !IsDigit(s[m])
    requires IsTriple(s[i..j])
    ensures ExtractVersion(s) == Some(s[i..j] + " (" + s[k + 1..e] + ")")
  {
    SkipNonDigits(s, 0, i);
    assert !IsDigit(s[j]) by {
      if j < k { assert IsAsciiWhitespace(s[j]); }
    }
    TripleEndAt(s, i, j);
    BuildAtIs(s, j, k, e);
  }

  /** A version followed by a build: text without digits, then `D+.D+.D+`, optional
      whitespace, `(digits)` and anything after, gives `"<version> (<build>)"`. */
  lemma ExtractVersionWithBuild(pre: string, v: string, ws: string, b: string, post: string)
    requires forall c | c in pre :: !IsDigit(c)
    requires IsTriple(v)
    requires forall c | c in ws :: IsAsciiWhitespace(c)
    requires b != [] && AllDigits(b)
    ensures ExtractVersion(pre + v + ws + "(" + b + ")" + post) == Some(v + " (" + b + ")")
  {
    // The text, one piece at a time, so that each index is looked up one level down.
    var sv := pre + v;
    var sw := sv + ws;
    var so := sw + "(";
    var sb := so + b;
    var sc := sb + ")";
    var s := sc + post;
    var i, j, k, e := |pre|, |sv|, |sw|, |sb|;
    assert forall m | 0 <= m < |sc| :: s[m] == sc[m];
    assert forall m | 0 <= m < |sb| :: sc[m] == sb[m];
    assert forall m | 0 <= m < |so| :: sb[m] == so[m];
    assert forall m | 0 <= m < |sw| :: so[m] == sw[m];
    assert forall m | 0 <= m < |sv| :: sw[m] == sv[m];
    assert forall m | 0 <= m < i :: s[m] == pre[m];
    assert forall m | j <= m < k :: s[m] == ws[m - j];
    assert s[k] == '(' && s[e] == ')';
    assert s[i..j] == v;
    assert s[k + 1..e] == b;
    ExtractAt(s, i, j, k, e);
  }

  /** The line fastlane prints after an upload yields the version with its build number. */
  lemma ExtractUploadExample()
    ensures ExtractVersion("Successfully uploaded build " + "2.1.0" + " " + "(" + "45" + ")" + " to TestFlight")
         == Some("2.1.0 (45)")
  {
    assert TripleWithDots("2.1.0", 1, 3);
    ExtractVersionWithBuild("Successfully uploaded build ", "2.1.0", " ", "45", " to TestFlight");
    assert "2.1.0" + " (" + "45" + ")" == "2.1.0 (45)";
  }

  // ---------------------------------------------------------------- streaming

  /** One line or one end read from the child's pipes, in the order the loop gets
      them. An end is the end of the stream or a read error: both are handled alike. */
  datatype StreamEvent = Stdout(line: string) | StdoutEnd | Stderr(line: string) | StderrEnd

  /** A stdout line worth scanning for a version. */
  predicate Qualifies(line: string) {
    || Contains(line, "Version:") || Contains(line, "version:")
    || Contains(line, "Successfully uploaded") || Contains(line, "Build")
  }

  /** An event that sets the last version: a qualifying stdout line with a match. */
  predicate Reports(e: StreamEvent) {
    e.Stdout? && Qualifies(e.line) && ExtractVersion(e.line).Some?
  }

  /** Index of the first end of stdout, or `|events|`. */
  function StdoutEndIndex(events: seq<StreamEvent>): (n: nat)
    ensures n <= |events|
    ensures n < |events| ==> events[n].StdoutEnd?
    ensures forall k | 0 <= k < n :: !events[k].StdoutEnd?
  {
    if events == [] || events[0].StdoutEnd? then 0 else 1 + StdoutEndIndex(events[1..])
  }

  /** The events the loop handles: those before the first end of stdout. */
  function Handled(events: seq<StreamEvent>): seq<StreamEvent> {
    events[..StdoutEndIndex(events)]
  }

  /** The lines of the events, in arrival order. */
  function Transcript(events: seq<StreamEvent>): (lines: seq<string>)
    ensures |lines| <= |events|
  {
    if events == [] then []
    else
      var e := events[|events| - 1];
      Transcript(events[..|events| - 1]) + (if e.Stdout? || e.Stderr? then [e.line] else [])
  }

  /** The version the events report last, `""` when none does. */
  function LastVersion(events: seq<StreamEvent>): string {
    if events == [] then ""
    else
      var e := events[|events| - 1];
      if Reports(e) then ExtractVersion(e.line).value else LastVersion(events[..|events| - 1])
  }

  /** The two version checks on one stdout line: a qualifying line with a match
      replaces the last version, any other line leaves it. */
  method ScanLine(line: string, lastVersion: string) returns (v': string)
    ensures Qualifies(line) && ExtractVersion(line).Some? ==> v' == ExtractVersion(line).value
    ensures !(Qualifies(line) && ExtractVersion(line).Some?) ==> v' == lastVersion
  {
    v' := lastVersion;
    if Contains(line, "Version:") || Contains(line, "version:") {
      var v := ExtractVersion(line);
      if v.Some? {
        v' := v.value;
      }
    }
    if Contains(line, "Successfully uploaded") || Contains(line, "Build") {
      var v := ExtractVersion(line);
      if v.Some? {
        v' := v.value;
      }
    }
  }

  /** The loop of `Fastlane::deploy`: record every line, scan the qualifying stdout
      lines, stop at the end of stdout. */
  method Stream(events: seq<StreamEvent>) returns (outputLines: seq<string>, lastVersion: string)
    ensures outputLines == Transcript(Handled(events))
    ensures lastVersion == LastVersion(Handled(events))
  {
    outputLines := [];
    lastVersion := "";
    var i := 0;
    while i < |events|
      invariant i <= |events|
      invariant forall k | 0 <= k < i :: !events[k].StdoutEnd?
      invariant outputLines == Transcript(events[..i])
      invariant lastVersion == LastVersion(events[..i])
    {
      var e := events[i];
      assert events[..i + 1] == events[..i] + [e];
      TranscriptSnoc(events[..i], e);
      LastVersionSnoc(events[..i], e);
      match e {
        case Stdout(line) =>
          outputLines := outputLines + [line];
          lastVersion := ScanLine(line, lastVersion);
        case StdoutEnd =>
          HandledUpTo(events, i);
          return;
        case Stderr(line) =>
          outputLines := outputLines + [line];
        case StderrEnd =>
      }
      i := i + 1;
    }
    HandledUpTo(events, i);
  }

  /** The loop handles the events up to the first end of stdout, or all of them. */
  lemma HandledUpTo(events: seq<StreamEvent>, i: nat)
    requires i <= |events| && forall k | 0 <= k < i :: !events[k].StdoutEnd?
    requires i < |events| ==> events[i].StdoutEnd?
    ensures Handled(events) == events[..i]
  {
    assert StdoutEndIndex(events) == i;
  }

  /** Splitting the events splits the transcript. */
  lemma {:induction false} TranscriptAppend(a: seq<StreamEvent>, b: seq<StreamEvent>)
    ensures Transcript(a + b) == Transcript(a) + Transcript(b)
    decreases |b|
  {
    if b == [] {
      assert a + b == a;
    } else {
      var init := b[..|b| - 1];
      assert (a + b)[..|a + b| - 1] == a + init;
      TranscriptAppend(a, init);
    }
  }

  /** Handling stops at the first end of stdout; everything after it is ignored. */
  lemma HandledStopsAtStdoutEnd(a: seq<StreamEvent>, b: seq<StreamEvent>)
    requires forall k | 0 <= k < |a| :: !a[k].StdoutEnd?
    ensures Handled(a + [StdoutEnd] + b) == a
  {
    var s := a + [StdoutEnd] + b;
    assert s[|a|].StdoutEnd?;
    assert forall k | 0 <= k < |a| :: s[k] == a[k];
    var n := StdoutEndIndex(s);
    assert n == |a|;
    assert s[..|a|] == a;
  }

  /** Events before the first end of stdout are all handled. */
  lemma HandledAppend(a: seq<StreamEvent>, b: seq<StreamEvent>)
    requires forall k | 0 <= k < |a| :: !a[k].StdoutEnd?
    ensures Handled(a + b) == a + Handled(b)
  {
    var s := a + b;
    var n := StdoutEndIndex(b);
    assert forall k | 0 <= k < |a| :: s[k] == a[k];
    assert forall k | 0 <= k < |b| :: s[|a| + k] == b[k];
    assert StdoutEndIndex(s) == |a| + n;
    assert s[..|a| + n] == a + b[..n];
  }

  /** An end of stderr does not stop the loop and adds nothing to the transcript. */
  lemma StderrEndContinues(a: seq<StreamEvent>, b: seq<StreamEvent>)
    requires forall k | 0 <= k < |a| :: !a[k].StdoutEnd?
    ensures Transcript(Handled(a + [StderrEnd] + b)) == Transcript(Handled(a + b))
    ensures LastVersion(Handled(a + [StderrEnd] + b)) == LastVersion(Handled(a + b))
  {
    var a' := a + [StderrEnd];
    assert forall k | 0 <= k < |a'| :: !a'[k].StdoutEnd?;
    HandledAppend(a', b);
    HandledAppend(a, b);
    var hb := Handled(b);
    TranscriptAppend(a', hb);
    TranscriptAppend(a, [StderrEnd]);
    TranscriptAppend(a, hb);
    assert Transcript([StderrEnd]) == [];
    assert Transcript(a') == Transcript(a);
    assert !Reports(StderrEnd);
    LastVersionSkips(a, [StderrEnd], hb);
  }

  /** Events that report nothing in the middle do not change the last version. */
  lemma {:induction false} LastVersionSkips(a: seq<StreamEvent>, m: seq<StreamEvent>, b: seq<StreamEvent>)
    requires forall k | 0 <= k < |m| :: !Reports(m[k])
    ensures LastVersion(a + m + b) == LastVersion(a + b)
    decreases |b|, |m|
  {
    if b != [] {
      var init, x := b[..|b| - 1], b[|b| - 1];
      assert a + m + b == (a + m + init) + [x];
      assert a + b == (a + init) + [x];
      LastVersionSnoc(a + m + init, x);
      LastVersionSnoc(a + init, x);
      LastVersionSkips(a, m, init);
    } else if m != [] {
      var init, x := m[..|m| - 1], m[|m| - 1];
      assert a + m + b == (a + init) + [x];
      assert a + init == a + init + [];
      LastVersionSnoc(a + init, x);
      LastVersionSkips(a, init, []);
    } else {
      assert a + m + b == a + b;
    }
  }

  /** One more event: its line is recorded if it has one. */
  lemma TranscriptSnoc(s: seq<StreamEvent>, x: StreamEvent)
    ensures Transcript(s + [x]) == Transcript(s) + (if x.Stdout? || x.Stderr? then [x.line] else [])
  {
    assert (s + [x])[..|s|] == s;
  }

  /** One more event: it sets the last version if it reports one. */
  lemma LastVersionSnoc(s: seq<StreamEvent>, x: StreamEvent)
    ensures LastVersion(s + [x]) == if Reports(x) then ExtractVersion(x.line).value else LastVersion(s)
  {
    assert (s + [x])[..|s|] == s;
  }

  /** Last write wins: the last version is the extraction from the last stdout line
      that qualifies and matches, whatever came before it. */
  lemma {:induction false} LastVersionIsLastReport(events: seq<StreamEvent>, k: nat)
    requires k < |events| && Reports(events[k])
    requires forall m | k < m < |events| :: !Reports(events[m])
    ensures LastVersion(events) == ExtractVersion(events[k].line).value
    decreases |events|
  {
    if k < |events| - 1 {
      var init := events[..|events| - 1];
      assert init[k] == events[k];
      LastVersionIsLastReport(init, k);
    }
  }

  /** With no stdout line that qualifies and matches, the last version stays empty;
      stderr lines never set it. */
  lemma {:induction false} NoReportNoVersion(events: seq<StreamEvent>)
    requires forall m | 0 <= m < |events| :: !Reports(events[m])
    ensures LastVersion(events) == ""
    decreases |events|
  {
    if events != [] {
      var init := events[..|events| - 1];
      assert forall m | 0 <= m < |init| :: init[m] == events[m];
      NoReportNoVersion(init);
    }
  }

  // ---------------------------------------------------------------- outcome

  const ContextLines := 10

  /** Reversal of a sequence, last element first. */
  function Reverse<T>(s: seq<T>): (r: seq<T>)
    ensures |r| == |s|
  {
    if s == [] then [] else [s[|s| - 1]] + Reverse(s[..|s| - 1])
  }

  lemma {:induction false} ReverseAt<T>(s: seq<T>, k: nat)
    requires k < |s|
    ensures Reverse(s)[k] == s[|s| - 1 - k]
    decreases |s|
  {
    if k > 0 {
      ReverseAt(s[..|s| - 1], k - 1);
    }
  }

  /** `Iterator::take`. */
  function Take<T>(s: seq<T>, n: nat): (r: seq<T>)
    ensures |r| == if n < |s| then n else |s|
  {
    if n < |s| then s[..n] else s
  }

  /** The last `min(10, n)` lines of the transcript, oldest first. */
  function ContextTail(lines: seq<string>): (tail: seq<string>)
    ensures |tail| == if |lines| < ContextLines then |lines| else ContextLines
  {
    if |lines| < ContextLines then lines else lines[|lines| - ContextLines..]
  }

  /** The tail is what `iter().rev().take(10)` then `rev()` collects. */
  lemma ContextTailIsRevTakeRev(lines: seq<string>)
    ensures ContextTail(lines) == Reverse(Take(Reverse(lines), ContextLines))
  {
    var tail := ContextTail(lines);
    var rev := Reverse(lines);
    var taken := Take(rev, ContextLines);
    var n := |tail|;
    assert |taken| == n;
    forall k | 0 <= k < n
      ensures tail[k] == Reverse(taken)[k]
    {
      ReverseAt(taken, k);
      assert taken[n - 1 - k] == rev[n - 1 - k];
      ReverseAt(lines, n - 1 - k);
      assert tail[k] == lines[|lines| - n + k];
    }
  }

  /** The message of a failed run: the transcript's tail joined by newlines. */
  function ErrorContext(lines: seq<string>): string {
    Join(ContextTail(lines), "\n")
  }

  /** What the child did: it could not be spawned, or it ran, producing the events,
      and waiting for it gave its exit status (`true` is success) or an error. */
  datatype FastlaneRun = SpawnFailed(reason: string) | Ran(events: seq<StreamEvent>, exit: Result<bool, string>)

  /** The result of `Fastlane::deploy` for a given run of the child. */
  function Outcome(run: FastlaneRun): Result<string, FastlaneError> {
    match run
    case SpawnFailed(m) => Err(Io(m))
    case Ran(events, exit) =>
      var handled := Handled(events);
      match exit
      case Err(m) => Err(Io(m))
      case Ok(success) =>
        if !success then Err(CommandFailed(ErrorContext(Transcript(handled))))
        else if LastVersion(handled) == "" then Ok("unknown")
        else Ok(LastVersion(handled))
  }

  /** A successful run reports a non-empty version: the last one the output gave,
      or `"unknown"`; a failed one the last ten lines of its output. */
  lemma OutcomeSpec(run: FastlaneRun)
    requires run.Ran? && run.exit.Ok?
    ensures var h := Handled(run.events);
            && (run.exit.value ==> Outcome(run).Ok? && Outcome(run).value != "")
            && (run.exit.value && (forall m | 0 <= m < |h| :: !Reports(h[m])) ==> Outcome(run) == Ok("unknown"))
            && (!run.exit.value ==>
                  Outcome(run) == Err(CommandFailed(Join(Reverse(Take(Reverse(Transcript(h)), ContextLines)), "\n"))))
  {
    var h := Handled(run.events);
    if run.exit.value && forall m | 0 <= m < |h| :: !Reports(h[m]) {
      NoReportNoVersion(h);
    }
    ContextTailIsRevTakeRev(Transcript(h));
  }

  /** `Fastlane::deploy`: run the lane's command and stream its output. */
  method Deploy(f: Fastlane, versionBump: Option<string>, run: Command -> FastlaneRun)
    returns (r: Result<string, FastlaneError>, effects: seq<Effect>)
    ensures effects == [Spawn(DeployCommand(f, versionBump))]
    ensures r == Outcome(run(DeployCommand(f, versionBump)))
  {
    var cmd := DeployCommand(f, versionBump);
    effects := [Spawn(cmd)];
    match run(cmd)
    case SpawnFailed(m) =>
      r := Err(Io(m));
    case Ran(events, exit) =>
      var outputLines, lastVersion := Stream(events);
      match exit
      case Err(m) =>
        r := Err(Io(m));
      case Ok(success) =>
        if !success {
          var errorMsg := Join(ContextTail(outputLines), "\n");
          return Err(CommandFailed(errorMsg)), effects;
        }
        if lastVersion == "" {
          lastVersion := "unknown";
        }
        r := Ok(lastVersion);
  }
}
