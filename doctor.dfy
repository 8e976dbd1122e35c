/** `launchpad doctor`: check Xcode, fastlane, the API key and, inside a project,
    its configuration and Fastfile; report each check and count the failures. */
module Doctor {
  import opened Wrappers
  import opened Text
  import opened Env
  import GlobalConfig
  import ProjectConfig
  import Templates

  datatype DoctorError = ChecksFailed

  /** The `Display` text of the doctor's error. */
  function Describe(e: DoctorError): string {
    "Prerequisites check failed"
  }

  /** One line of the report: what was checked, whether it passed, and what was found. */
  datatype CheckResult = CheckResult(name: string, passed: bool, message: string)

  const XcodeVersion := Plain("xcodebuild", ["-version"])
  const FastlaneVersion := Plain("fastlane", ["--version"])

  const XcodeMissing := "Not installed (run: xcode-select --install)"
  const FastlaneMissing := "Not installed (run: brew install fastlane)"
  const NotConfigured := "Not configured (run: launchpad setup)"
  const FastfileMissing := "Not found (run: fastlane init in ios directory)"
  const Unknown := "Unknown"
  const Installed := "installed"

  // ---------------------------------------------------------------- Xcode

  /** `check_xcode`: passes when `xcodebuild -version` runs and succeeds, reporting
      the first line it prints. */
  function CheckXcode(run: Result<Output, string>): (c: CheckResult)
    ensures c.name == "Xcode"
    ensures c.passed <==> run.Ok? && run.value.success
    ensures !c.passed ==> c.message == XcodeMissing
    ensures c.passed && run.value.stdout == [] ==> c.message == Unknown
    ensures c.passed && run.value.stdout != [] ==> c.message == Lines(run.value.stdout)[0] && '\n' !in c.message
  {
    if run.Ok? && run.value.success then
      var line := FirstLine(run.value.stdout);
      CheckResult("Xcode", true, if line.Some? then line.value else Unknown)
    else
      CheckResult("Xcode", false, XcodeMissing)
  }

  // ---------------------------------------------------------------- fastlane

  /** The first line containing `sub`, as `find` on `lines()` gives it. */
  function FindLine(lines: seq<string>, sub: string): (r: Option<string>)
    ensures r.Some? ==> r.value in lines && Contains(r.value, sub)
    ensures r.None? <==> forall k | 0 <= k < |lines| :: !Contains(lines[k], sub)
  {
    if lines == [] then None
    else if Contains(lines[0], sub) then Some(lines[0])
    else FindLine(lines[1..], sub)
  }

  /** `FindLine` is the line at the first index whose line contains `sub`. */
  lemma {:induction false} FindLineIsFirst(lines: seq<string>, sub: string)
    ensures var k := FirstIndex(lines, l => Contains(l, sub));
            FindLine(lines, sub) == if k < |lines| then Some(lines[k]) else None
  {
    var p := (l: string) => Contains(l, sub);
    if lines == [] {
      FirstIndexIs(lines, p, 0);
    } else if p(lines[0]) {
      FirstIndexIs(lines, p, 0);
    } else {
      FindLineIsFirst(lines[1..], sub);
      var k := FirstIndex(lines[1..], p);
      FirstIndexMin(lines[1..], p);
      assert forall j | 1 <= j < |lines| :: lines[j] == lines[1..][j - 1];
      FirstIndexIs(lines, p, k + 1);
    }
  }

  /** The version `check_fastlane` reports: the last word of the first line that
      mentions fastlane, or "installed". */
  function ScrapeVersion(stdout: string): string {
    match FindLine(Lines(stdout), "fastlane")
    case None => Installed
    case Some(line) =>
      match Last(SplitWhitespace(line))
      case Some(word) => word
      case None => Installed
  }

  /** A line that contains a text starting with a non-whitespace character has a
      last word. */
  lemma MentionHasWord(line: string, sub: string)
    requires sub != [] && !IsWhitespace(sub[0]) && Contains(line, sub)
    ensures SplitWhitespace(line) != []
  {
    var i: nat :| i <= |line| && OccursAt(line, sub, i);
    assert line[i] == line[i..i + |sub|][0] == sub[0];
    TrimStartRemoves(line);
  }

  /** On a line that mentions fastlane, the version is that line's last word. */
  lemma ScrapeMention(stdout: string, line: string)
    requires FindLine(Lines(stdout), "fastlane") == Some(line)
    ensures var words := SplitWhitespace(line);
            words != [] && ScrapeVersion(stdout) == words[|words| - 1] && IsWord(ScrapeVersion(stdout))
  {
    MentionHasWord(line, "fastlane");
    SplitWhitespacePieces(line);
  }

  /** The reported version is "installed" exactly when no line mentions fastlane;
      otherwise it is a single word, the last one on the first such line. */
  lemma ScrapeVersionSpec(stdout: string)
    ensures var line := FindLine(Lines(stdout), "fastlane");
            && (line.None? <==> ScrapeVersion(stdout) == Installed && forall k | 0 <= k < |Lines(stdout)| :: !Contains(Lines(stdout)[k], "fastlane"))
            && (line.Some? ==> var words := SplitWhitespace(line.value);
                                words != [] && ScrapeVersion(stdout) == words[|words| - 1] && IsWord(ScrapeVersion(stdout)))
  {
    var line := FindLine(Lines(stdout), "fastlane");
    if line.Some? {
      ScrapeMention(stdout, line.value);
    }
  }

  /** `check_fastlane`: passes when `fastlane` is on the path, with the scraped
      version; when `fastlane --version` cannot be run the version is "installed". */
  function CheckFastlane(found: bool, run: Result<Output, string>): (c: CheckResult)
    ensures c.name == "fastlane"
    ensures c.passed <==> found
    ensures !found ==> c.message == FastlaneMissing
    ensures found && run.Err? ==> c.message == Installed
    ensures found && run.Ok? ==> c.message == ScrapeVersion(run.value.stdout)
  {
    if !found then CheckResult("fastlane", false, FastlaneMissing)
    else
      match run
      case Err(_) => CheckResult("fastlane", true, Installed)
      case Ok(out) => CheckResult("fastlane", true, ScrapeVersion(out.stdout))
  }

  // ---------------------------------------------------------------- configuration

  /** `check_global_config`: passes when the configuration loads and its key file exists. */
  function CheckGlobalConfig(w: World, load: Result<Option<GlobalConfig.Config>, GlobalConfig.ConfigError>): (c: CheckResult)
    ensures c.name == "Apple API key"
    ensures c.passed <==> load.Ok? && load.value.Some? && Exists(w, w.expandTilde(load.value.value.apple.keyPath))
    ensures c.passed ==> c.message == "Configured (" + load.value.value.apple.keyId + ")"
    ensures load.Ok? && load.value.Some? && !c.passed ==> c.message == "Key file not found: " + w.expandTilde(load.value.value.apple.keyPath)
    ensures load == Ok(None) ==> c.message == NotConfigured
    ensures load.Err? ==> c.message == "Config error: " + GlobalConfig.Describe(load.error)
  {
    match load
    case Ok(Some(config)) =>
      var keyPath := w.expandTilde(config.apple.keyPath);
      if Exists(w, keyPath) then CheckResult("Apple API key", true, "Configured (" + config.apple.keyId + ")")
      else CheckResult("Apple API key", false, "Key file not found: " + keyPath)
    case Ok(None) => CheckResult("Apple API key", false, NotConfigured)
    case Err(e) => CheckResult("Apple API key", false, "Config error: " + GlobalConfig.Describe(e))
  }

  /** `check_project_config`: no line outside a project; inside one, passes when the
      configuration loads and its iOS directory exists. */
  function CheckProjectConfig(w: World, parse: string -> Result<ProjectConfig.TomlDocument, string>): (r: Option<CheckResult>)
    ensures r.None? <==> !Exists(w, ProjectConfig.FileName)
    ensures r.Some? ==> r.value.name == "Project"
    ensures var load := ProjectConfig.Load(w, parse);
            r.Some? ==>
              && (r.value.passed <==> load.Ok? && load.value.Some? && Exists(w, load.value.value.project.iosPath))
              && (load.Err? ==> r.value.message == "Config error: " + ProjectConfig.Describe(load.error))
              && (r.value.passed ==> r.value.message == load.value.value.project.iosPath + " (scheme: " + load.value.value.project.scheme + ")")
              && (load.Ok? && load.value.Some? && !r.value.passed ==>
                    r.value.message == "iOS path not found: " + load.value.value.project.iosPath)
  {
    ProjectConfig.LoadAbsentIsNone(w, parse);
    if !Exists(w, ProjectConfig.FileName) then None
    else
      match ProjectConfig.Load(w, parse)
      case Ok(Some(config)) =>
        var ios := config.project.iosPath;
        if Exists(w, ios) then Some(CheckResult("Project", true, ios + " (scheme: " + config.project.scheme + ")"))
        else Some(CheckResult("Project", false, "iOS path not found: " + ios))
      case Ok(None) => None
      case Err(e) => Some(CheckResult("Project", false, "Config error: " + ProjectConfig.Describe(e)))
  }

  // ---------------------------------------------------------------- Fastfile

  /** The first place, in lookup order, that holds a Fastfile. */
  ghost function FoundFastfile(w: World, iosPath: string): (r: Option<string>)
    ensures r.Some? ==> r.value in Templates.FastfileCandidates(iosPath) && Exists(w, r.value)
    ensures r.None? <==> forall k | 0 <= k < 4 :: !Exists(w, Templates.FastfileCandidates(iosPath)[k])
  {
    var candidates := Templates.FastfileCandidates(iosPath);
    var p := (path: string) => Exists(w, path);
    var i := FirstIndex(candidates, p);
    FirstIndexMin(candidates, p);
    if i < |candidates| then Some(candidates[i]) else None
  }

  /** `check_fastfile`: only when the project configuration loads; passes with the
      first Fastfile found. */
  method CheckFastfile(w: World, parse: string -> Result<ProjectConfig.TomlDocument, string>) returns (r: Option<CheckResult>)
    ensures var load := ProjectConfig.Load(w, parse);
            && (r.None? <==> !(load.Ok? && load.value.Some?))
            && (r.Some? ==>
                  var found := FoundFastfile(w, load.value.value.project.iosPath);
                  && r.value.name == "Fastfile"
                  && (r.value.passed <==> found.Some?)
                  && r.value.message == if found.Some? then found.value else FastfileMissing)
  {
    var load := ProjectConfig.Load(w, parse);
    if !(load.Ok? && load.value.Some?) {
      return None;
    }
    var iosPath := load.value.value.project.iosPath;
    var candidates := Templates.FastfileCandidates(iosPath);
    var i := FirstExisting(w, candidates);
    FirstIndexIs(candidates, (path: string) => Exists(w, path), i);
    if i < |candidates| {
      r := Some(CheckResult("Fastfile", true, candidates[i]));
    } else {
      r := Some(CheckResult("Fastfile", false, FastfileMissing));
    }
  }

  // ---------------------------------------------------------------- the report

  /** How many checks failed. */
  function Failures(checks: seq<CheckResult>): (n: nat)
    ensures n <= |checks|
  {
    if checks == [] then 0
    else Failures(checks[..|checks| - 1]) + if checks[|checks| - 1].passed then 0 else 1
  }

  /** No failures exactly when every check passed. */
  lemma {:induction false} FailuresZeroIff(checks: seq<CheckResult>)
    ensures Failures(checks) == 0 <==> forall k | 0 <= k < |checks| :: checks[k].passed
  {
    if checks != [] {
      var init := checks[..|checks| - 1];
      FailuresZeroIff(init);
      assert forall k | 0 <= k < |init| :: init[k] == checks[k];
    }
  }

  /** The failure count of a concatenation is the sum of the parts' counts. */
  lemma {:induction false} FailuresAppend(a: seq<CheckResult>, b: seq<CheckResult>)
    ensures Failures(a + b) == Failures(a) + Failures(b)
    decreases |b|
  {
    if b == [] {
      assert a + b == a;
    } else {
      var b' := b[..|b| - 1];
      FailuresAppend(a, b');
      assert (a + b)[..|a + b| - 1] == a + b';
    }
  }

  /** The loop in `run` that reports each check and counts the failed ones. */
  method CountFailures(checks: seq<CheckResult>) returns (failed: nat)
    ensures failed == Failures(checks)
  {
    failed := 0;
    var i := 0;
    while i < |checks|
      invariant i <= |checks|
      invariant failed == Failures(checks[..i])
    {
      assert checks[..i + 1][..i] == checks[..i];
      if !checks[i].passed {
        failed := failed + 1;
      }
      i := i + 1;
    }
    assert checks[..i] == checks;
  }

  /** The closing line of a report with failures: "1 issue found", "N issues found". */
  function Summary(failed: nat): string {
    NatToString(failed) + " issue" + (if failed == 1 then "" else "s") + " found"
  }

  /** The two forms the summary takes. */
  lemma SummaryForms(failed: nat)
    ensures failed == 1 ==> Summary(failed) == NatToString(failed) + " issue found"
    ensures failed != 1 ==> Summary(failed) == NatToString(failed) + " issues found"
  {
  }

  /** A text ending in " issues found" ends in the plural. */
  lemma PluralEnding(digits: string, tail: string)
    requires tail == " issues found"
    ensures EndsWith(digits + tail, "issues found")
  {
    assert (digits + tail)[|digits + tail| - 12..] == tail[1..];
  }

  /** A text ending in " issue found" does not. */
  lemma SingularEnding(digits: string, tail: string)
    requires tail == " issue found"
    ensures !EndsWith(digits + tail, "issues found")
  {
    var s := digits + tail;
    assert s[|s| - 12] == tail[0] == ' ';
  }

  /** The summary starts with the count in decimal and is plural exactly when the
      count is not one. */
  lemma SummarySpec(failed: nat)
    ensures var digits := NatToString(failed);
            && StartsWith(Summary(failed), digits)
            && DecimalValue(digits) == failed
            && (EndsWith(Summary(failed), "issues found") <==> failed != 1)
  {
    NatToStringRoundTrip(failed);
    SummaryForms(failed);
    var digits := NatToString(failed);
    if failed == 1 {
      SingularEnding(digits, " issue found");
    } else {
      PluralEnding(digits, " issues found");
    }
  }

  /** `run`: the three checks always made, then the project checks when they apply,
      then the verdict. `run` stands for the processes started, `fastlaneFound` for
      whether `fastlane` is on the path; the summary line is printed only on failure. */
  method Run(w: World, run: Command -> Result<Output, string>, fastlaneFound: bool,
             parseGlobal: string -> Result<GlobalConfig.Config, string>,
             parseProject: string -> Result<ProjectConfig.TomlDocument, string>)
    returns (r: Result<(), DoctorError>, checks: seq<CheckResult>, summary: Option<string>, effects: seq<Effect>)
    ensures 3 <= |checks| <= 5
    ensures checks[0] == CheckXcode(run(XcodeVersion))
    ensures checks[1] == CheckFastlane(fastlaneFound, run(FastlaneVersion))
    ensures checks[2] == CheckGlobalConfig(w, GlobalConfig.Load(w, parseGlobal))
    ensures |checks| == 3 + (if CheckProjectConfig(w, parseProject).Some? then 1 else 0)
                          + (if ProjectConfig.Load(w, parseProject).Ok? && ProjectConfig.Load(w, parseProject).value.Some? then 1 else 0)
    ensures CheckProjectConfig(w, parseProject).Some? ==> checks[3] == CheckProjectConfig(w, parseProject).value
    // With a loaded project configuration the last check is the Fastfile search.
    ensures var load := ProjectConfig.Load(w, parseProject);
            load.Ok? && load.value.Some? ==>
              var found := FoundFastfile(w, load.value.value.project.iosPath);
              && checks[|checks| - 1].name == "Fastfile"
              && (checks[|checks| - 1].passed <==> found.Some?)
              && checks[|checks| - 1].message == if found.Some? then found.value else FastfileMissing
    ensures effects == [Spawn(XcodeVersion)] + if fastlaneFound then [Spawn(FastlaneVersion)] else []
    // The verdict: success exactly when every check passed, else the count of failures.
    ensures r.Ok? <==> forall k | 0 <= k < |checks| :: checks[k].passed
    ensures r.Ok? ==> summary.None?
    ensures r.Err? ==> r.error == ChecksFailed && summary == Some(Summary(Failures(checks))) && Failures(checks) > 0
  {
    effects := [Spawn(XcodeVersion)];
    var xcode := CheckXcode(run(XcodeVersion));
    if fastlaneFound {
      effects := effects + [Spawn(FastlaneVersion)];
    }
    var fastlane := CheckFastlane(fastlaneFound, run(FastlaneVersion));
    var global := CheckGlobalConfig(w, GlobalConfig.Load(w, parseGlobal));
    var project := CheckProjectConfig(w, parseProject);
    var fastfile := CheckFastfile(w, parseProject);
    checks := Collect(xcode, fastlane, global, project, fastfile);
    r, summary := Verdict(checks);
  }

  /** The checks in report order: the three always made, then those that apply. */
  method Collect(xcode: CheckResult, fastlane: CheckResult, global: CheckResult,
                 project: Option<CheckResult>, fastfile: Option<CheckResult>) returns (checks: seq<CheckResult>)
    ensures |checks| == 3 + (if project.Some? then 1 else 0) + (if fastfile.Some? then 1 else 0)
    ensures checks[0] == xcode && checks[1] == fastlane && checks[2] == global
    ensures project.Some? ==> checks[3] == project.value
    ensures fastfile.Some? ==> checks[|checks| - 1] == fastfile.value
  {
    checks := [xcode, fastlane, global];
    if project.Some? {
      checks := checks + [project.value];
    }
    if fastfile.Some? {
      checks := checks + [fastfile.value];
    }
  }

  /** The end of `run`: success exactly when every check passed, else the summary
      line with the count of failures. */
  method Verdict(checks: seq<CheckResult>) returns (r: Result<(), DoctorError>, summary: Option<string>)
    ensures r.Ok? <==> forall k | 0 <= k < |checks| :: checks[k].passed
    ensures r.Ok? ==> summary.None?
    ensures r.Err? ==> r.error == ChecksFailed && summary == Some(Summary(Failures(checks))) && Failures(checks) > 0
  {
    var failed := CountFailures(checks);
    FailuresZeroIff(checks);
    if failed > 0 {
      return Err(ChecksFailed), Some(Summary(failed));
    }
    r, summary := Ok(()), None;
  }
}
