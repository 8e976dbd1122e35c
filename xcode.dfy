/** The `xcodebuild` queries: which workspace or project to pass, the scheme list
    of `xcodebuild -list`, and the bundle identifier in `-showBuildSettings`. */
module Xcode {
  import opened Wrappers
  import opened Text
  import opened Env

  datatype XcodeError =
    | CommandFailed(message: string)
    | NoProjectFound(path: string)
    | Io(reason: string)

  /** The `Display` text of an Xcode error. */
  function Describe(e: XcodeError): string {
    match e
    case CommandFailed(m) => "Xcode command failed: " + m
    case NoProjectFound(p) => "No Xcode project found at: " + p
    case Io(m) => "IO error: " + m
  }

  const SchemesHeader := "Schemes:"
  const BundleKey := "PRODUCT_BUNDLE_IDENTIFIER"
  const NoBundleId := "Could not find bundle identifier"

  // ---------------------------------------------------------------- project files

  /** The entry names `find_workspace` accepts: a workspace that is not the one
      Xcode keeps inside every project (`project.xcworkspace`). */
  predicate IsWorkspaceName(name: string) {
    EndsWith(name, ".xcworkspace") && !StartsWith(name, "project.")
  }

  /** The entry names `find_project` accepts. */
  predicate IsProjectName(name: string) {
    EndsWith(name, ".xcodeproj")
  }

  /** The path of the first entry of `dir`, in listing order, whose name satisfies `p`. */
  ghost function EntryWhere(w: World, dir: string, p: string -> bool): (r: Option<string>)
    ensures r.Some? <==> exists k | 0 <= k < |ReadDir(w, dir)| :: p(ReadDir(w, dir)[k])
  {
    var names := ReadDir(w, dir);
    var i := FirstIndex(names, p);
    FirstIndexMin(names, p);
    if i < |names| then Some(PathJoin(dir, names[i])) else None
  }

  /** `find_workspace` and `find_project`: scan the listing, stop at the first match. */
  method FindEntry(w: World, dir: string, p: string -> bool) returns (r: Option<string>)
    ensures r == EntryWhere(w, dir, p)
  {
    var names := ReadDir(w, dir);
    var i := 0;
    while i < |names|
      invariant i <= |names|
      invariant forall j | 0 <= j < i :: !p(names[j])
    {
      if p(names[i]) {
        FirstIndexIs(names, p, i);
        return Some(PathJoin(dir, names[i]));
      }
      i := i + 1;
    }
    FirstIndexIs(names, p, i);
    r := None;
  }

  /** The arguments that name what to build: a workspace if there is one, else a project. */
  function TargetArgs(workspace: Option<string>, project: Option<string>): (a: seq<string>)
    ensures workspace.Some? ==> a == ["-workspace", workspace.value]
    ensures workspace.None? && project.Some? ==> a == ["-project", project.value]
    ensures workspace.None? && project.None? ==> a == []
  {
    match (workspace, project)
    case (Some(ws), _) => ["-workspace", ws]
    case (None, Some(proj)) => ["-project", proj]
    case (None, None) => []
  }

  /** A workspace is passed in preference to a project, and never `project.xcworkspace`. */
  lemma WorkspaceFirst(w: World, dir: string)
    ensures var ws := EntryWhere(w, dir, IsWorkspaceName);
            var a := TargetArgs(ws, EntryWhere(w, dir, IsProjectName));
            && (ws.Some? ==> a[0] == "-workspace")
            && (a != [] && a[0] == "-workspace" ==>
                  exists k | 0 <= k < |ReadDir(w, dir)| ::
                    a[1] == PathJoin(dir, ReadDir(w, dir)[k]) && !StartsWith(ReadDir(w, dir)[k], "project."))
  {
    var names := ReadDir(w, dir);
    var i := FirstIndex(names, IsWorkspaceName);
    if i < |names| {
      assert IsWorkspaceName(names[i]);
    }
  }

  function ListCommand(workspace: Option<string>, project: Option<string>): Command {
    Plain("xcodebuild", ["-list"] + TargetArgs(workspace, project))
  }

  function BuildSettingsCommand(scheme: string, workspace: Option<string>, project: Option<string>): Command {
    Plain("xcodebuild", ["-showBuildSettings", "-scheme", scheme] + TargetArgs(workspace, project))
  }

  // ---------------------------------------------------------------- scheme list

  // The state machine of `parse_schemes` does not depend on what the lines are:
  // it is written once over lines of any type `T`, a normalisation `f` (trimming)
  // and two classifications of normalised lines, a section header `hd` and a line
  // that ends the section `st`.

  /** `f` applied to every line. */
  ghost function Mapped<T, U>(lines: seq<T>, f: T -> U): (r: seq<U>)
    ensures |r| == |lines|
    ensures forall k | 0 <= k < |lines| :: r[k] == f(lines[k])
  {
    seq(|lines|, k requires 0 <= k < |lines| => f(lines[k]))
  }

  /** The lines, in order, leaving out headers. */
  ghost function Kept<U>(us: seq<U>, hd: U -> bool): (r: seq<U>)
    ensures |r| <= |us|
  {
    if us == [] then []
    else
      var last := us[|us| - 1];
      Kept(us[..|us| - 1], hd) + (if hd(last) then [] else [last])
  }

  /** The lines of the section: after the first header, up to the first line that ends it. */
  ghost function Section<U>(us: seq<U>, hd: U -> bool, st: U -> bool): seq<U> {
    var h := FirstIndex(us, hd);
    if h == |us| then []
    else
      var body := us[h + 1..];
      body[..FirstIndex(body, st)]
  }

  lemma KeptSnoc<U>(us: seq<U>, u: U, hd: U -> bool)
    ensures Kept(us + [u], hd) == Kept(us, hd) + (if hd(u) then [] else [u])
  {
    assert (us + [u])[..|us|] == us;
  }

  /** Extending a stretch of lines by one more line extends what it keeps. */
  lemma KeptExtend<U>(us: seq<U>, hd: U -> bool, h: nat, i: nat)
    requires h < i < |us|
    ensures Kept(us[h + 1..i + 1], hd) == Kept(us[h + 1..i], hd) + (if hd(us[i]) then [] else [us[i]])
  {
    assert us[h + 1..i + 1] == us[h + 1..i] + [us[i]];
    KeptSnoc(us[h + 1..i], us[i], hd);
  }

  /** The section runs from after the first header `h` up to `e`, the first line
      after it that ends the section (or the end of the lines). */
  lemma SectionEndsAt<U>(us: seq<U>, hd: U -> bool, st: U -> bool, h: nat, e: nat)
    requires h == FirstIndex(us, hd) && h < e <= |us|
    requires forall j | h < j < e :: !st(us[j])
    requires e < |us| ==> st(us[e])
    ensures Section(us, hd, st) == us[h + 1..e]
  {
    var body := us[h + 1..];
    forall j | 0 <= j < e - h - 1
      ensures !st(body[j])
    {
      assert body[j] == us[h + 1 + j];
    }
    if e < |us| {
      assert body[e - h - 1] == us[e];
    }
    FirstIndexIs(body, st, e - h - 1);
  }

  /** What the loop of `parse_schemes` knows after `i` lines: outside the section no
      header has been seen and nothing is kept; inside it, nothing has ended it yet and
      every non-header line after the header is kept. */
  ghost predicate Scanned<U>(us: seq<U>, hd: U -> bool, st: U -> bool, i: nat, inSection: bool, kept: seq<U>) {
    var h := FirstIndex(us, hd);
    && i <= |us|
    && (!inSection ==> i <= h && kept == [])
    && (inSection ==> h < i && (forall j | h < j < i :: !st(us[j])) && kept == Kept(us[h + 1..i], hd))
  }

  /** One more line that does not end the section keeps the loop's knowledge. */
  lemma ScanStep<U>(us: seq<U>, hd: U -> bool, st: U -> bool, i: nat, inSection: bool, kept: seq<U>)
    requires Scanned(us, hd, st, i, inSection, kept) && i < |us|
    requires inSection ==> !st(us[i])
    ensures Scanned(us, hd, st, i + 1, inSection || hd(us[i]),
                    if inSection && !hd(us[i]) then kept + [us[i]] else kept)
  {
    var h := FirstIndex(us, hd);
    if inSection {
      KeptExtend(us, hd, h, i);
    } else if hd(us[i]) {
      FirstIndexMin(us, hd);
      assert i == h;
      assert us[h + 1..i + 1] == [];
    }
  }

  /** The loop's knowledge at a line that ends the section, or at the end of the
      lines, is the kept section. */
  lemma ScanEnd<U>(us: seq<U>, hd: U -> bool, st: U -> bool, i: nat, inSection: bool, kept: seq<U>)
    requires Scanned(us, hd, st, i, inSection, kept)
    requires i == |us| || (inSection && st(us[i]))
    ensures kept == Kept(Section(us, hd, st), hd)
  {
    var h := FirstIndex(us, hd);
    if inSection {
      SectionEndsAt(us, hd, st, h, i);
    } else {
      assert h == |us|;
    }
  }

  /** The loop of `parse_schemes`: an `in_schemes` flag set by a header, then every
      non-header line collected until a line that ends the section. */
  method ScanSection<T, U>(lines: seq<T>, f: T -> U, hd: U -> bool, st: U -> bool) returns (kept: seq<U>)
    requires forall k | 0 <= k < |lines| :: hd(f(lines[k])) ==> !st(f(lines[k]))
    ensures kept == Kept(Section(Mapped(lines, f), hd, st), hd)
  {
    ghost var us := Mapped(lines, f);
    kept := [];
    var inSection := false;
    var i := 0;
    while i < |lines|
      invariant Scanned(us, hd, st, i, inSection, kept)
    {
      var u := f(lines[i]);
      assert u == us[i];
      if hd(u) {
        ScanStep(us, hd, st, i, inSection, kept);
        inSection := true;
      } else if inSection {
        if st(u) {
          ScanEnd(us, hd, st, i, inSection, kept);
          return;
        }
        ScanStep(us, hd, st, i, inSection, kept);
        kept := kept + [u];
      } else {
        ScanStep(us, hd, st, i, inSection, kept);
      }
      i := i + 1;
    }
    ScanEnd(us, hd, st, i, inSection, kept);
  }

  /** Every line `Kept` keeps is one of its lines, and not a header. */
  lemma {:induction false} KeptFrom<U>(us: seq<U>, hd: U -> bool, k: nat)
    requires k < |Kept(us, hd)|
    ensures exists j | 0 <= j < |us| :: Kept(us, hd)[k] == us[j] && !hd(us[j])
    decreases |us|
  {
    var init := us[..|us| - 1];
    if k < |Kept(init, hd)| {
      KeptFrom(init, hd, k);
      var j :| 0 <= j < |init| && Kept(init, hd)[k] == init[j] && !hd(init[j]);
      assert us[j] == init[j];
    }
  }

  /** Every line kept lies after the first header and before the line that ends the section. */
  lemma SectionLines<U>(us: seq<U>, hd: U -> bool, st: U -> bool, k: nat)
    requires k < |Kept(Section(us, hd, st), hd)|
    ensures var x := Kept(Section(us, hd, st), hd)[k];
            var h := FirstIndex(us, hd);
            && h < |us| && !hd(x) && !st(x)
            && exists j | h < j < |us| :: x == us[j]
  {
    var h := FirstIndex(us, hd);
    var section := Section(us, hd, st);
    KeptFrom(section, hd, k);
    var j :| 0 <= j < |section| && Kept(section, hd)[k] == section[j] && !hd(section[j]);
    var body := us[h + 1..];
    FirstIndexMin(body, st);
    assert section[j] == body[j] == us[h + 1 + j];
  }

  /** Lines after the line that ends the section change nothing. */
  lemma SectionIgnoresLater<U>(us: seq<U>, rest: seq<U>, hd: U -> bool, st: U -> bool)
    requires FirstIndex(us, hd) < |us|
    requires var h := FirstIndex(us, hd); FirstIndex(us[h + 1..], st) < |us| - h - 1
    ensures Section(us + rest, hd, st) == Section(us, hd, st)
  {
    var all := us + rest;
    var h := FirstIndex(us, hd);
    FirstIndexAppend(us, rest, hd);
    assert FirstIndex(all, hd) == h;
    var body := us[h + 1..];
    var body' := all[h + 1..];
    assert body' == body + rest;
    var e := FirstIndex(body, st);
    FirstIndexAppend(body, rest, st);
    assert FirstIndex(body', st) == e;
    assert body'[..e] == body[..e];
  }

  predicate IsHeader(t: string) {
    t == SchemesHeader
  }

  /** A trimmed line that ends the scheme list: blank, or another `Something:` header. */
  predicate IsStop(t: string) {
    !IsHeader(t) && (t == [] || EndsWith(t, ":"))
  }

  /** Each line of the output with surrounding whitespace removed. */
  ghost function TrimAll(lines: seq<string>): seq<string> {
    Mapped(lines, Trim)
  }

  /** The schemes `xcodebuild -list` prints, given its output's trimmed lines. */
  ghost function SchemesOf(ts: seq<string>): seq<string> {
    Kept(Section(ts, IsHeader, IsStop), IsHeader)
  }

  /** `parse_schemes`. */
  method ParseSchemes(output: string) returns (schemes: seq<string>)
    ensures schemes == SchemesOf(TrimAll(Lines(output)))
  {
    schemes := ScanSection(Lines(output), Trim, IsHeader, IsStop);
  }

  /** No line trims to `Schemes:`, no schemes. */
  lemma NoHeaderNoSchemes(ts: seq<string>)
    requires forall k | 0 <= k < |ts| :: ts[k] != SchemesHeader
    ensures SchemesOf(ts) == []
  {
    FirstIndexIs(ts, IsHeader, |ts|);
  }

  /** Every scheme is a non-empty trimmed line after the header that does not end in
      ':' and is not the header itself; nothing before the header is collected. */
  lemma SchemesAreSectionLines(ts: seq<string>, k: nat)
    requires k < |SchemesOf(ts)|
    ensures var name := SchemesOf(ts)[k];
            var h := FirstIndex(ts, IsHeader);
            && h < |ts|
            && name != [] && !EndsWith(name, ":") && name != SchemesHeader
            && exists j | h < j < |ts| :: name == ts[j]
  {
    SectionLines(ts, IsHeader, IsStop, k);
  }

  /** Lines after the line that ends the scheme list change nothing. */
  lemma LaterLinesIgnored(ts: seq<string>, rest: seq<string>)
    requires FirstIndex(ts, IsHeader) < |ts|
    requires var h := FirstIndex(ts, IsHeader); FirstIndex(ts[h + 1..], IsStop) < |ts| - h - 1
    ensures SchemesOf(ts + rest) == SchemesOf(ts)
  {
    SectionIgnoresLater(ts, rest, IsHeader, IsStop);
  }

  /** Lines none of which is a header are all kept. */
  lemma {:induction false} KeptNoHeader(names: seq<string>)
    requires forall k | 0 <= k < |names| :: names[k] != SchemesHeader
    ensures Kept(names, IsHeader) == names
  {
    if names != [] {
      var init := names[..|names| - 1];
      KeptNoHeader(init);
      KeptSnoc(init, names[|names| - 1], IsHeader);
      assert init + [names[|names| - 1]] == names;
    }
  }

  /** Scheme names listed under `Schemes:` and closed by a blank line are exactly
      the schemes, whatever the rest of the output says. */
  lemma SchemesBeforeBlank(names: seq<string>, rest: seq<string>)
    requires forall k | 0 <= k < |names| :: names[k] != [] && !EndsWith(names[k], ":") && names[k] != SchemesHeader
    ensures SchemesOf([SchemesHeader] + names + [""] + rest) == names
  {
    var ts := [SchemesHeader] + names + [""] + rest;
    var e := 1 + |names|;
    assert forall j | 1 <= j < e :: ts[j] == names[j - 1];
    FirstIndexIs(ts, IsHeader, 0);
    assert ts[e] == "";
    SectionEndsAt(ts, IsHeader, IsStop, 0, e);
    assert ts[1..e] == names;
    KeptNoHeader(names);
  }

  /** What `list_schemes` returns for a directory, with `run` standing for the process. */
  ghost function SchemesOutcome(w: World, iosPath: string, run: Command -> Result<Output, string>): Result<seq<string>, XcodeError> {
    var ws := EntryWhere(w, iosPath, IsWorkspaceName);
    var proj := EntryWhere(w, iosPath, IsProjectName);
    if ws.None? && proj.None? then Err(NoProjectFound(iosPath))
    else
      match run(ListCommand(ws, proj))
      case Err(m) => Err(Io(m))
      case Ok(out) => if out.success then Ok(SchemesOf(TrimAll(Lines(out.stdout)))) else Err(CommandFailed(out.stderr))
  }

  /** `list_schemes`: choose the workspace or project, run `xcodebuild -list`, and
      parse its output. With neither, nothing runs. */
  method ListSchemes(w: World, iosPath: string, run: Command -> Result<Output, string>)
    returns (r: Result<seq<string>, XcodeError>, effects: seq<Effect>)
    ensures r == SchemesOutcome(w, iosPath, run)
    ensures Quiet(effects) && NoWrites(effects)
    ensures var ws := EntryWhere(w, iosPath, IsWorkspaceName);
            var proj := EntryWhere(w, iosPath, IsProjectName);
            var cmd := ListCommand(ws, proj);
            && (ws.None? && proj.None? ==> r == Err(NoProjectFound(iosPath)) && effects == [])
            && (ws.Some? || proj.Some? ==>
                  && effects == [Spawn(cmd)]
                  && (run(cmd).Err? ==> r == Err(Io(run(cmd).error)))
                  && (run(cmd).Ok? && !run(cmd).value.success ==> r == Err(CommandFailed(run(cmd).value.stderr)))
                  && (run(cmd).Ok? && run(cmd).value.success ==> r == Ok(SchemesOf(TrimAll(Lines(run(cmd).value.stdout))))))
  {
    var workspace := FindEntry(w, iosPath, IsWorkspaceName);
    var project := FindEntry(w, iosPath, IsProjectName);
    if workspace.None? && project.None? {
      return Err(NoProjectFound(iosPath)), [];
    }
    var cmd := ListCommand(workspace, project);
    effects := [Spawn(cmd)];
    match run(cmd)
    case Err(m) =>
      r := Err(Io(m));
    case Ok(out) =>
      if !out.success {
        r := Err(CommandFailed(out.stderr));
      } else {
        var schemes := ParseSchemes(out.stdout);
        r := Ok(schemes);
      }
  }

  // ---------------------------------------------------------------- bundle identifier

  /** A line the scan stops at: it names the key and `split('=').nth(1)` finds a value. */
  predicate IsBundleLine(line: string) {
    Contains(line, BundleKey) && '=' in line
  }

  /** The trimmed second `=`-separated field of a line holding '='. */
  function BundleValue(line: string): string
    requires '=' in line
  {
    var fields := SplitOn(line, '=');
    Trim(fields[1])
  }

  /** The bundle identifier the build settings give, if any. */
  ghost function BundleIdOf(stdout: string): Option<string> {
    var lines := Lines(stdout);
    var k := FirstIndex(lines, IsBundleLine);
    if k < |lines| then Some(BundleValue(lines[k])) else None
  }

  /** The first piece of a split is the text before the first separator. */
  lemma SplitOnFirst(s: string, c: char)
    ensures SplitOn(s, c)[0] == s[..IndexOf(s, c)]
  {
    if IndexOf(s, c) == |s| {
      assert s[..|s|] == s;
    }
  }

  /** The second piece of a split is the first piece of what follows the first separator. */
  lemma SplitOnSecond(s: string, c: char)
    requires c in s
    ensures |SplitOn(s, c)| >= 2 && SplitOn(s, c)[1] == SplitOn(s[IndexOf(s, c) + 1..], c)[0]
  {
  }

  /** The value is the trimmed text between the first '=' and the next '=' or the end. */
  lemma BundleValueBetweenEquals(line: string)
    requires '=' in line
    ensures var i := IndexOf(line, '=');
            var rest := line[i + 1..];
            BundleValue(line) == Trim(rest[..IndexOf(rest, '=')])
  {
    var i := IndexOf(line, '=');
    var rest := line[i + 1..];
    SplitOnSecond(line, '=');
    SplitOnFirst(rest, '=');
  }

  /** The scan in `get_bundle_id`: the first line naming the key that has an '='. */
  method ScanBundleId(stdout: string) returns (r: Option<string>)
    ensures r == BundleIdOf(stdout)
  {
    var lines := Lines(stdout);
    var i := 0;
    while i < |lines|
      invariant i <= |lines|
      invariant forall j | 0 <= j < i :: !IsBundleLine(lines[j])
    {
      var line := lines[i];
      if Contains(line, BundleKey) {
        var value := Nth(SplitOn(line, '='), 1);
        if value.Some? {
          FirstIndexIs(lines, IsBundleLine, i);
          return Some(Trim(value.value));
        }
      }
      i := i + 1;
    }
    FirstIndexIs(lines, IsBundleLine, i);
    r := None;
  }

  /** A line naming the key without an '=' is passed over. */
  lemma KeyWithoutEqualsSkipped(before: seq<string>, line: string, after: seq<string>)
    requires Contains(line, BundleKey) && '=' !in line
    requires forall k | 0 <= k < |before| :: !IsBundleLine(before[k])
    ensures FirstIndex(before + [line] + after, IsBundleLine) == |before| + 1 + FirstIndex(after, IsBundleLine)
  {
    var s := before + [line] + after;
    var f := FirstIndex(after, IsBundleLine);
    var k := |before| + 1 + f;
    assert forall j | 0 <= j < |after| :: s[|before| + 1 + j] == after[j];
    assert forall j | 0 <= j < |before| :: s[j] == before[j];
    assert s[|before|] == line;
    FirstIndexIs(s, IsBundleLine, k);
  }

  /** What `get_bundle_id` returns for a directory and scheme, with `run` standing for the process. */
  ghost function BundleIdOutcome(w: World, iosPath: string, scheme: string, run: Command -> Result<Output, string>): Result<string, XcodeError> {
    match run(BuildSettingsCommand(scheme, EntryWhere(w, iosPath, IsWorkspaceName), EntryWhere(w, iosPath, IsProjectName)))
    case Err(m) => Err(Io(m))
    case Ok(out) =>
      if !out.success then Err(CommandFailed(out.stderr))
      else if BundleIdOf(out.stdout).None? then Err(CommandFailed(NoBundleId))
      else Ok(BundleIdOf(out.stdout).value)
  }

  /** `get_bundle_id`: `xcodebuild -showBuildSettings -scheme <scheme>`, naming the
      workspace or project when there is one (with neither it still runs), then the scan. */
  method GetBundleId(w: World, iosPath: string, scheme: string, run: Command -> Result<Output, string>)
    returns (r: Result<string, XcodeError>, effects: seq<Effect>)
    ensures r == BundleIdOutcome(w, iosPath, scheme, run)
    ensures Quiet(effects) && NoWrites(effects)
    ensures var cmd := BuildSettingsCommand(scheme, EntryWhere(w, iosPath, IsWorkspaceName), EntryWhere(w, iosPath, IsProjectName));
            && effects == [Spawn(cmd)]
            && (run(cmd).Err? ==> r == Err(Io(run(cmd).error)))
            && (run(cmd).Ok? && !run(cmd).value.success ==> r == Err(CommandFailed(run(cmd).value.stderr)))
            && (run(cmd).Ok? && run(cmd).value.success ==>
                  match BundleIdOf(run(cmd).value.stdout)
                  case None => r == Err(CommandFailed(NoBundleId))
                  case Some(id) => r == Ok(id))
  {
    var workspace := FindEntry(w, iosPath, IsWorkspaceName);
    var project := FindEntry(w, iosPath, IsProjectName);
    var cmd := BuildSettingsCommand(scheme, workspace, project);
    effects := [Spawn(cmd)];
    match run(cmd)
    case Err(m) =>
      r := Err(Io(m));
    case Ok(out) =>
      if !out.success {
        r := Err(CommandFailed(out.stderr));
      } else {
        var id := ScanBundleId(out.stdout);
        r := if id.Some? then Ok(id.value) else Err(CommandFailed(NoBundleId));
      }
  }
}
