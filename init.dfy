/** `launchpad init`: make sure fastlane is installed, find the iOS project, choose
    the scheme, bundle identifier and tag policy, write `.launchpad.toml` and its
    example, create a Fastfile when there is none, and offer a `.gitignore` entry. */
module Init {
  import opened Wrappers
  import opened Text
  import opened Env
  import XcodeBuild = Xcode
  import ProjectConfig
  import Templates

  datatype InitError =
    | NoIosProject
    | NoSchemeDetected
    | AlreadyInitialized
    | Io(reason: string)
    | Xcode(message: string)
    | FastlaneInstallFailed
    | UserCancelled

  /** The `Display` text of an init error. */
  function Describe(e: InitError): string {
    match e
    case NoIosProject => "No iOS project found in current directory"
    case NoSchemeDetected => "Could not detect Xcode scheme. Use --scheme to specify."
    case AlreadyInitialized => ".launchpad.toml already exists. Delete it first to reinitialize."
    case Io(m) => "IO error: " + m
    case Xcode(m) => "Xcode error: " + m
    case FastlaneInstallFailed => "fastlane installation failed"
    case UserCancelled => "User cancelled"
  }

  // ---------------------------------------------------------------- the user

  /** What the user answers: a yes/no question, a text question with its default,
      and a choice among items; each may fail instead (no terminal, interrupted). */
  datatype Prompts = Prompts(
    confirm: string -> Result<bool, string>,
    input: (string, string) -> Result<string, string>,
    select: seq<string> -> Result<nat, string>
  )

  /** A choice is always one of the items offered. */
  ghost predicate SelectsInRange(p: Prompts) {
    forall items: seq<string> :: p.select(items).Ok? ==> p.select(items).value < |items|
  }

  type Answers = p: Prompts | SelectsInRange(p) witness Prompts(_ => Err(""), (_, _) => Err(""), _ => Err(""))

  const InstallPrompt := "Install fastlane?"
  const SchemePrompt := "Multiple schemes found. Please select one:"
  const BundlePrompt := "Bundle identifier"
  const TagPrompt := "Create git tags after deploy?"
  const PushPrompt := "Push tags to remote?"
  const FastfilePrompt := "Create Fastfile with required lanes?"
  const GitignorePrompt := "Add .launchpad.toml to .gitignore?"

  const ExampleFileName := ".launchpad.toml.example"
  const GitignoreFileName := ".gitignore"
  const GitignoreEntry := ".launchpad.toml"
  const DefaultBundleId := "com.example.app"
  const BrewInstall := Plain("brew", ["install", "fastlane"])

  // ---------------------------------------------------------------- fastlane

  /** What `check_and_install_fastlane` returns: success when `fastlane` is there;
      otherwise the answer to the question (unless `--yes`), then Homebrew's exit. */
  function InstallOutcome(found: bool, nonInteractive: bool, answers: Answers,
                          run: Command -> Result<Output, string>): Result<(), InitError> {
    if found then Ok(())
    else if !nonInteractive && answers.confirm(InstallPrompt).Err? then Err(Io(answers.confirm(InstallPrompt).error))
    else if !nonInteractive && answers.confirm(InstallPrompt) == Ok(false) then Err(UserCancelled)
    else
      match run(BrewInstall)
      case Err(m) => Err(Io(m))
      case Ok(status) => if status.success then Ok(()) else Err(FastlaneInstallFailed)
  }

  /** `check_and_install_fastlane`: nothing to do when `fastlane` is on the path;
      otherwise install it with Homebrew, asking first unless `--yes` was given. */
  method CheckAndInstallFastlane(found: bool, nonInteractive: bool, answers: Answers,
                                 run: Command -> Result<Output, string>)
    returns (r: Result<(), InitError>, effects: seq<Effect>)
    ensures r == InstallOutcome(found, nonInteractive, answers, run)
    ensures NoWrites(effects)
    ensures found ==> r == Ok(()) && effects == []
    ensures nonInteractive ==> Quiet(effects)
    ensures !found && !nonInteractive ==>
              && effects != [] && effects[0] == Ask(InstallPrompt)
              && (answers.confirm(InstallPrompt).Err? ==> r == Err(Io(answers.confirm(InstallPrompt).error)) && effects == [Ask(InstallPrompt)])
              && (answers.confirm(InstallPrompt) == Ok(false) ==> r == Err(UserCancelled) && effects == [Ask(InstallPrompt)])
    // Homebrew runs exactly when fastlane is missing and installing was agreed to.
    ensures Spawn(BrewInstall) in effects <==> !found && (nonInteractive || answers.confirm(InstallPrompt) == Ok(true))
    ensures Spawn(BrewInstall) in effects ==>
              && effects[|effects| - 1] == Spawn(BrewInstall)
              && (run(BrewInstall).Err? ==> r == Err(Io(run(BrewInstall).error)))
              && (run(BrewInstall).Ok? ==> (r.Ok? <==> run(BrewInstall).value.success))
              && (run(BrewInstall).Ok? && !run(BrewInstall).value.success ==> r == Err(FastlaneInstallFailed))
  {
    if found {
      return Ok(()), [];
    }
    effects := [];
    var install := true;
    if !nonInteractive {
      effects := [Ask(InstallPrompt)];
      var answer := answers.confirm(InstallPrompt);
      if answer.Err? {
        return Err(Io(answer.error)), effects;
      }
      install := answer.value;
    }
    if !install {
      return Err(UserCancelled), effects;
    }
    effects := effects + [Spawn(BrewInstall)];
    match run(BrewInstall) {
      case Err(m) => r := Err(Io(m));
      case Ok(status) => r := if status.success then Ok(()) else Err(FastlaneInstallFailed);
    }
  }

  // ---------------------------------------------------------------- the iOS project

  /** The directories `detect_ios_path` tries, in order. */
  const IosCandidates := ["ios", ".", "App", "app"]

  /** An entry that marks an Xcode workspace or project. */
  predicate IsXcodeEntry(name: string) {
    EndsWith(name, ".xcworkspace") || EndsWith(name, ".xcodeproj")
  }

  /** Whether the listing of `dir` holds an Xcode workspace or project. */
  predicate HoldsXcodeEntry(w: World, dir: string) {
    exists k | 0 <= k < |ReadDir(w, dir)| :: IsXcodeEntry(ReadDir(w, dir)[k])
  }

  /** The first candidate directory that holds a workspace or project. */
  ghost function IosPathOf(w: World): (r: Option<string>)
    ensures r.Some? ==> r.value in IosCandidates && HoldsXcodeEntry(w, r.value)
    ensures r.None? <==> forall c | c in IosCandidates :: !HoldsXcodeEntry(w, c)
  {
    var p := (c: string) => HoldsXcodeEntry(w, c);
    var i := FirstIndex(IosCandidates, p);
    FirstIndexMin(IosCandidates, p);
    if i < |IosCandidates| then Some(IosCandidates[i]) else None
  }

  /** `detect_ios_path`: for each candidate, scan its listing for a workspace or project. */
  method DetectIosPath(w: World) returns (r: Option<string>)
    ensures r == IosPathOf(w)
  {
    var p := (c: string) => HoldsXcodeEntry(w, c);
    var i := 0;
    while i < |IosCandidates|
      invariant i <= |IosCandidates|
      invariant forall j | 0 <= j < i :: !p(IosCandidates[j])
    {
      var candidate := IosCandidates[i];
      var names := ReadDir(w, candidate);
      var k := 0;
      while k < |names|
        invariant k <= |names|
        invariant forall j | 0 <= j < k :: !IsXcodeEntry(names[j])
      {
        if IsXcodeEntry(names[k]) {
          FirstIndexIs(IosCandidates, p, i);
          return Some(candidate);
        }
        k := k + 1;
      }
      i := i + 1;
    }
    FirstIndexIs(IosCandidates, p, i);
    r := None;
  }

  /** The directory `init` works on: the one given, else the detected one, else "". */
  function ChosenIosPath(given: Option<string>, detected: Option<string>): (p: string)
    ensures given.Some? ==> p == given.value
    ensures given.None? && detected.Some? ==> p == detected.value
    ensures given.None? && detected.None? ==> p == []
  {
    match given
    case Some(p) => p
    case None => if detected.Some? then detected.value else []
  }

  // ---------------------------------------------------------------- scheme

  /** The scheme step's result: the flag, else the listed schemes decide. */
  function SchemeChoice(given: Option<string>, schemes: seq<string>, nonInteractive: bool, answers: Answers): (r: Result<string, InitError>)
    ensures given.None? && r.Ok? ==> r.value in schemes
  {
    if given.Some? then Ok(given.value)
    else if schemes == [] then Err(NoSchemeDetected)
    else if |schemes| == 1 || nonInteractive then Ok(schemes[0])
    else
      match answers.select(schemes)
      case Err(m) => Err(Io(m))
      case Ok(k) => Ok(schemes[k])
  }

  /** The scheme: the one given, the only one listed, the first one in `--yes` mode,
      or the user's choice among several. */
  method SelectScheme(given: Option<string>, schemes: seq<string>, nonInteractive: bool, answers: Answers)
    returns (r: Result<string, InitError>, effects: seq<Effect>)
    ensures r == SchemeChoice(given, schemes, nonInteractive, answers)
    ensures NoWrites(effects) && (nonInteractive ==> Quiet(effects))
    ensures given.Some? ==> r == Ok(given.value) && effects == []
    ensures given.None? && schemes == [] ==> r == Err(NoSchemeDetected) && effects == []
    ensures given.None? && |schemes| == 1 ==> r == Ok(schemes[0]) && effects == []
    ensures given.None? && |schemes| > 1 && nonInteractive ==> r == Ok(schemes[0]) && effects == []
    ensures given.None? && |schemes| > 1 && !nonInteractive ==>
              && effects == [Ask(SchemePrompt)]
              && (answers.select(schemes).Err? ==> r == Err(Io(answers.select(schemes).error)))
              && (answers.select(schemes).Ok? ==> r == Ok(schemes[answers.select(schemes).value]))
    ensures given.None? && r.Ok? ==> r.value in schemes
  {
    effects := [];
    if given.Some? {
      r := Ok(given.value);
    } else if schemes == [] {
      r := Err(NoSchemeDetected);
    } else if |schemes| == 1 || nonInteractive {
      r := Ok(schemes[0]);
    } else {
      effects := [Ask(SchemePrompt)];
      var selection := answers.select(schemes);
      if selection.Err? {
        r := Err(Io(selection.error));
      } else {
        r := Ok(schemes[selection.value]);
      }
    }
  }

  // ---------------------------------------------------------------- bundle identifier

  /** What the build settings give, or the placeholder when the query fails. */
  function DetectedBundleId(probe: Result<string, XcodeBuild.XcodeError>): (id: string)
    ensures probe.Ok? ==> id == probe.value
    ensures probe.Err? ==> id == DefaultBundleId
  {
    if probe.Ok? then probe.value else DefaultBundleId
  }

  /** The bundle identifier: the one given, the detected one in `--yes` mode, or the
      user's answer to a question whose default is the detected one. */
  function ChooseBundleId(given: Option<string>, nonInteractive: bool, detected: string, answers: Answers)
    : (r: (Result<string, InitError>, seq<Effect>))
    ensures NoWrites(r.1) && (nonInteractive ==> Quiet(r.1))
    ensures given.Some? ==> r == (Ok(given.value), [])
    ensures given.None? && nonInteractive ==> r == (Ok(detected), [])
    ensures given.None? && !nonInteractive ==>
              && r.1 == [Ask(BundlePrompt)]
              && var answer := answers.input(BundlePrompt, detected);
                 r.0 == if answer.Ok? then Ok(answer.value) else Err(Io(answer.error))
  {
    if given.Some? then (Ok(given.value), [])
    else if nonInteractive then (Ok(detected), [])
    else
      match answers.input(BundlePrompt, detected)
      case Ok(id) => (Ok(id), [Ask(BundlePrompt)])
      case Err(m) => (Err(Io(m)), [Ask(BundlePrompt)])
  }

  // ---------------------------------------------------------------- tag policy

  /** `(git_tag, push_tags)`: both on in `--yes` mode; otherwise asked, and the push
      question only when tagging was chosen. */
  function TagPolicy(nonInteractive: bool, answers: Answers): (r: (Result<(bool, bool), InitError>, seq<Effect>))
    ensures NoWrites(r.1)
    ensures nonInteractive ==> r == (Ok((true, true)), [])
    ensures !nonInteractive ==> r.1 != [] && r.1[0] == Ask(TagPrompt)
    ensures r.0.Ok? && r.0.value.1 ==> r.0.value.0
    ensures Ask(PushPrompt) in r.1 <==> !nonInteractive && answers.confirm(TagPrompt) == Ok(true)
    ensures !nonInteractive && r.0.Ok? ==>
              && answers.confirm(TagPrompt) == Ok(r.0.value.0)
              && (r.0.value.0 ==> answers.confirm(PushPrompt) == Ok(r.0.value.1))
  {
    if nonInteractive then (Ok((true, true)), [])
    else
      match answers.confirm(TagPrompt)
      case Err(m) => (Err(Io(m)), [Ask(TagPrompt)])
      case Ok(false) => (Ok((false, false)), [Ask(TagPrompt)])
      case Ok(true) =>
        match answers.confirm(PushPrompt)
        case Err(m) => (Err(Io(m)), [Ask(TagPrompt), Ask(PushPrompt)])
        case Ok(push) => (Ok((true, push)), [Ask(TagPrompt), Ask(PushPrompt)])
  }

  /** The configuration `init` writes; artifacts are always cleaned. */
  function NewConfig(iosPath: string, scheme: string, bundleId: string, tags: (bool, bool)): (c: ProjectConfig.Config)
    ensures c.project == ProjectConfig.ProjectSettings(iosPath, scheme, bundleId)
    ensures c.deploy.gitTag == tags.0 && c.deploy.pushTags == tags.1 && c.deploy.cleanArtifacts
  {
    ProjectConfig.Config(ProjectConfig.ProjectSettings(iosPath, scheme, bundleId),
                         ProjectConfig.DeploySettings(tags.0, tags.1, true))
  }

  // ---------------------------------------------------------------- Fastfile

  /** Whether any of the places `init` and `doctor` look at holds a Fastfile. */
  predicate HasFastfile(w: World, iosPath: string) {
    exists k | 0 <= k < |Templates.FastfileCandidates(iosPath)| :: Exists(w, Templates.FastfileCandidates(iosPath)[k])
  }

  /** The directory a created Fastfile goes in. */
  function FastlaneDir(iosPath: string): string {
    iosPath + "/fastlane"
  }

  /** Where a created Fastfile goes: the first place later runs look. */
  function FastfilePath(iosPath: string): (p: string)
    ensures p == Templates.FastfileCandidates(iosPath)[0]
  {
    FastlaneDir(iosPath) + "/Fastfile"
  }

  /** Creating the Fastfile: its directory, then the file with `text`. */
  function CreateFastfile(iosPath: string, text: string): seq<Effect> {
    [CreateDirAll(FastlaneDir(iosPath)), WriteText(FastfilePath(iosPath), text)]
  }

  /** Whether step 9 creates the Fastfile: there is none yet, and `--yes` was given
      or the user agreed. */
  predicate CreatesFastfile(w: World, iosPath: string, nonInteractive: bool, answers: Answers) {
    !HasFastfile(w, iosPath) && (nonInteractive || answers.confirm(FastfilePrompt) == Ok(true))
  }

  /** What step 9 returns: only a failed question is an error; declining is not. */
  function FastfileOutcome(w: World, iosPath: string, nonInteractive: bool, answers: Answers): Result<(), InitError> {
    if HasFastfile(w, iosPath) || nonInteractive then Ok(())
    else
      match answers.confirm(FastfilePrompt)
      case Err(m) => Err(Io(m))
      case Ok(_) => Ok(())
  }

  /** What step 9 does: nothing with a Fastfile present; otherwise the question
      (unless `--yes`), then the creation when it applies. */
  function FastfileEffects(w: World, iosPath: string, generated: string, nonInteractive: bool, answers: Answers): seq<Effect> {
    if HasFastfile(w, iosPath) then []
    else if nonInteractive then CreateFastfile(iosPath, generated)
    else [Ask(FastfilePrompt)] + if answers.confirm(FastfilePrompt) == Ok(true) then CreateFastfile(iosPath, generated) else []
  }

  /** `check_and_create_fastfile`: keep an existing Fastfile; otherwise, with consent
      or in `--yes` mode, create `<ios>/fastlane` and write `generated`, the Fastfile
      generated for the scheme. */
  method CheckAndCreateFastfile(w: World, iosPath: string, generated: string, nonInteractive: bool, answers: Answers)
    returns (r: Result<(), InitError>, effects: seq<Effect>)
    ensures r == FastfileOutcome(w, iosPath, nonInteractive, answers)
    ensures effects == FastfileEffects(w, iosPath, generated, nonInteractive, answers)
    ensures forall e | e in effects && e.WriteText? :: e == WriteText(FastfilePath(iosPath), generated)
    ensures WriteText(FastfilePath(iosPath), generated) in effects <==> CreatesFastfile(w, iosPath, nonInteractive, answers)
    ensures nonInteractive ==> Quiet(effects)
    ensures HasFastfile(w, iosPath) ==> r == Ok(()) && effects == []
    ensures !HasFastfile(w, iosPath) && nonInteractive ==> r == Ok(()) && effects == CreateFastfile(iosPath, generated)
    ensures !HasFastfile(w, iosPath) && !nonInteractive ==>
              var answer := answers.confirm(FastfilePrompt);
              && (answer.Err? ==> r == Err(Io(answer.error)) && effects == [Ask(FastfilePrompt)])
              && (answer == Ok(false) ==> r == Ok(()) && effects == [Ask(FastfilePrompt)])
              && (answer == Ok(true) ==> r == Ok(()) && effects == [Ask(FastfilePrompt)] + CreateFastfile(iosPath, generated))
  {
    var candidates := Templates.FastfileCandidates(iosPath);
    var i := FirstExisting(w, candidates);
    if i < |candidates| {
      return Ok(()), [];
    }
    effects := [];
    var create := true;
    if !nonInteractive {
      effects := [Ask(FastfilePrompt)];
      var answer := answers.confirm(FastfilePrompt);
      if answer.Err? {
        return Err(Io(answer.error)), effects;
      }
      create := answer.value;
    }
    if !create {
      return Ok(()), effects;
    }
    effects := effects + CreateFastfile(iosPath, generated);
    r := Ok(());
  }

  /** Once created, the Fastfile is found where `init` and `doctor` look, so a
      second run leaves it alone. */
  lemma CreatedFastfileIsFound(w: World, iosPath: string, text: string)
    ensures HasFastfile(w.(files := w.files[FastfilePath(iosPath) := Readable(text)]), iosPath)
  {
    var w' := w.(files := w.files[FastfilePath(iosPath) := Readable(text)]);
    assert Exists(w', Templates.FastfileCandidates(iosPath)[0]);
  }

  // ---------------------------------------------------------------- .gitignore

  /** The new `.gitignore` text, or `None` when it already mentions the config file. */
  function GitignoreUpdate(text: string): (r: Option<string>)
    ensures r.None? <==> Contains(text, GitignoreEntry)
    ensures r.Some? ==> r.value == text + "\n" + GitignoreEntry + "\n"
  {
    if Contains(text, GitignoreEntry) then None else Some(text + "\n.launchpad.toml\n")
  }

  /** After an update the entry is there, so a second update changes nothing. */
  lemma GitignoreIdempotent(text: string)
    ensures var r := GitignoreUpdate(text);
            r.Some? ==> Contains(r.value, GitignoreEntry) && GitignoreUpdate(r.value).None?
  {
    var r := GitignoreUpdate(text);
    if r.Some? {
      var t := text + "\n";
      assert r.value == t + (GitignoreEntry + "\n");
      assert OccursAt(GitignoreEntry + "\n", GitignoreEntry, 0);
      ContainsAt(GitignoreEntry + "\n", GitignoreEntry, 0);
      ContainsRight(t, GitignoreEntry + "\n", GitignoreEntry);
    }
  }

  /** The text of a file as `read_to_string` gives it. */
  function ReadText(w: World, path: string): (r: Result<string, string>)
    requires Exists(w, path)
    ensures path in w.files && w.files[path].Readable? <==> r.Ok?
    ensures r.Ok? ==> r.value == w.files[path].text
  {
    if path !in w.files then Err(DirectoryReadError)
    else match w.files[path]
      case Readable(t) => Ok(t)
      case Unreadable(m) => Err(m)
  }

  /** What step 10 returns: only a failed question or an unreadable `.gitignore` is
      an error; declining, or finding the entry already there, is not. */
  function GitignoreOutcome(w: World, nonInteractive: bool, answers: Answers): Result<(), InitError> {
    if !Exists(w, GitignoreFileName) || nonInteractive then Ok(())
    else
      match answers.confirm(GitignorePrompt)
      case Err(m) => Err(Io(m))
      case Ok(false) => Ok(())
      case Ok(true) =>
        match ReadText(w, GitignoreFileName)
        case Err(m) => Err(Io(m))
        case Ok(_) => Ok(())
  }

  /** What step 10 does: nothing without a `.gitignore` or with `--yes`; otherwise the
      question, then the rewrite when agreed to, readable and not yet mentioned. */
  function GitignoreEffects(w: World, nonInteractive: bool, answers: Answers): seq<Effect> {
    if !Exists(w, GitignoreFileName) || nonInteractive then []
    else
      [Ask(GitignorePrompt)]
      + if answers.confirm(GitignorePrompt) == Ok(true)
           && ReadText(w, GitignoreFileName).Ok? && GitignoreUpdate(ReadText(w, GitignoreFileName).value).Some?
        then [WriteText(GitignoreFileName, GitignoreUpdate(ReadText(w, GitignoreFileName).value).value)]
        else []
  }

  /** Step 10: offered only when a `.gitignore` exists, never in `--yes` mode; the
      entry is appended when agreed to and not already present. */
  method OfferGitignore(w: World, nonInteractive: bool, answers: Answers)
    returns (r: Result<(), InitError>, effects: seq<Effect>)
    ensures !Exists(w, GitignoreFileName) || nonInteractive ==> r == Ok(()) && effects == []
    ensures forall e | e in effects && e.WriteText? :: e.path == GitignoreFileName
    ensures Exists(w, GitignoreFileName) && !nonInteractive ==> effects != [] && effects[0] == Ask(GitignorePrompt)
    ensures forall e | e in effects :: e == Ask(GitignorePrompt) || e.WriteText?
    ensures forall e | e in effects && e.WriteText? ::
              && e.path == GitignoreFileName
              && !nonInteractive && answers.confirm(GitignorePrompt) == Ok(true)
              && Exists(w, GitignoreFileName)
              && ReadText(w, GitignoreFileName).Ok?
              && GitignoreUpdate(ReadText(w, GitignoreFileName).value) == Some(e.text)
    ensures r == GitignoreOutcome(w, nonInteractive, answers)
    ensures effects == GitignoreEffects(w, nonInteractive, answers)
  {
    if !Exists(w, GitignoreFileName) || nonInteractive {
      return Ok(()), [];
    }
    effects := [Ask(GitignorePrompt)];
    var answer := answers.confirm(GitignorePrompt);
    if answer.Err? {
      return Err(Io(answer.error)), effects;
    }
    r := Ok(());
    if answer.value {
      var read := ReadText(w, GitignoreFileName);
      if read.Err? {
        return Err(Io(read.error)), effects;
      }
      var update := GitignoreUpdate(read.value);
      if update.Some? {
        effects := effects + [WriteText(GitignoreFileName, update.value)];
      }
    }
  }

  // ---------------------------------------------------------------- the workflow

  /** The files `init` may write: the configuration, its example, the Fastfile of
      the chosen project and `.gitignore`. */
  predicate WritesOnly(effects: seq<Effect>, iosPath: string) {
    forall e | e in effects && e.WriteText? ::
      e.path == ProjectConfig.FileName || e.path == ExampleFileName
      || e.path == GitignoreFileName || e.path == FastfilePath(iosPath)
  }

  /** The Fastfile `init` may create is none of the other files it writes. */
  lemma FastfileIsNoOtherFile(iosPath: string)
    ensures FastfilePath(iosPath) != ProjectConfig.FileName
    ensures FastfilePath(iosPath) != ExampleFileName
    ensures FastfilePath(iosPath) != GitignoreFileName
  {
    var p := FastfilePath(iosPath);
    var n := |p|;
    assert p[n - 9..] == "/Fastfile";
    assert p[n - 3] == 'i' && p[n - 1] == 'e';
  }

  /** The configuration, its example and `.gitignore` are three different files. */
  lemma FileNamesDistinct()
    ensures ProjectConfig.FileName != ExampleFileName
    ensures ProjectConfig.FileName != GitignoreFileName
    ensures ExampleFileName != GitignoreFileName
  {
    assert |ProjectConfig.FileName| != |ExampleFileName|;
    assert |ProjectConfig.FileName| != |GitignoreFileName|;
    assert |ExampleFileName| != |GitignoreFileName|;
  }

  /** What a configuration chosen by `init` satisfies. */
  ghost predicate Chosen(c: ProjectConfig.Config, iosPath: Option<string>, scheme: Option<string>,
                   bundleId: Option<string>, nonInteractive: bool, w: World) {
    && c.project.iosPath == ChosenIosPath(iosPath, IosPathOf(w)) && c.project.iosPath != []
    && (scheme.Some? ==> c.project.scheme == scheme.value)
    && (bundleId.Some? ==> c.project.bundleId == bundleId.value)
    && c.deploy.cleanArtifacts
    && (c.deploy.pushTags ==> c.deploy.gitTag)
    && (nonInteractive ==> c.deploy.gitTag && c.deploy.pushTags)
  }

  /** The result of steps 4 and 5 once the directory and scheme are known: the bundle
      identifier (the build settings are queried even when one is given), then the
      tag policy; each step's error is the result. */
  ghost function SettingsOutcome(ios: string, scheme: string, bundleId: Option<string>, nonInteractive: bool,
                                 w: World, answers: Answers, run: Command -> Result<Output, string>)
    : Result<ProjectConfig.Config, InitError>
  {
    var detected := DetectedBundleId(XcodeBuild.BundleIdOutcome(w, ios, scheme, run));
    match ChooseBundleId(bundleId, nonInteractive, detected, answers).0
    case Err(e) => Err(e)
    case Ok(id) =>
      match TagPolicy(nonInteractive, answers).0
      case Err(e) => Err(e)
      case Ok(tags) => Ok(NewConfig(ios, scheme, id, tags))
  }

  /** The result of steps 2 to 5, step by step: each step's error is the result. */
  ghost function ConfigOutcome(iosPath: Option<string>, scheme: Option<string>, bundleId: Option<string>, nonInteractive: bool,
                               w: World, answers: Answers, run: Command -> Result<Output, string>)
    : Result<ProjectConfig.Config, InitError>
  {
    var ios := ChosenIosPath(iosPath, IosPathOf(w));
    if ios == [] then Err(NoIosProject)
    else
      match XcodeBuild.SchemesOutcome(w, ios, run)
      case Err(e) => Err(Xcode(XcodeBuild.Describe(e)))
      case Ok(schemes) =>
        match SchemeChoice(scheme, schemes, nonInteractive, answers)
        case Err(e) => Err(e)
        case Ok(chosen) => SettingsOutcome(ios, chosen, bundleId, nonInteractive, w, answers, run)
  }

  /** A configuration out of steps 4 and 5 keeps the directory and scheme, honours
      a given bundle identifier and respects the tag rules. */
  lemma SettingsOutcomeSpec(ios: string, scheme: string, bundleId: Option<string>, nonInteractive: bool,
                            w: World, answers: Answers, run: Command -> Result<Output, string>)
    ensures var r := SettingsOutcome(ios, scheme, bundleId, nonInteractive, w, answers, run);
            r.Ok? ==>
              && r.value.project.iosPath == ios && r.value.project.scheme == scheme
              && (bundleId.Some? ==> r.value.project.bundleId == bundleId.value)
              && r.value.deploy.cleanArtifacts
              && (r.value.deploy.pushTags ==> r.value.deploy.gitTag)
              && (nonInteractive ==> r.value.deploy.gitTag && r.value.deploy.pushTags)
  {
    var detected := DetectedBundleId(XcodeBuild.BundleIdOutcome(w, ios, scheme, run));
    var id := ChooseBundleId(bundleId, nonInteractive, detected, answers).0;
    var tags := TagPolicy(nonInteractive, answers).0;
    if id.Ok? && tags.Ok? {
      assert SettingsOutcome(ios, scheme, bundleId, nonInteractive, w, answers, run) == Ok(NewConfig(ios, scheme, id.value, tags.value));
    }
  }

  /** The schemes are listed, and a failure to list them reported, even when a scheme
      is given; a configuration that comes out honours every flag, and an unflagged
      scheme is one of those listed. */
  lemma ConfigOutcomeSpec(iosPath: Option<string>, scheme: Option<string>, bundleId: Option<string>, nonInteractive: bool,
                          w: World, answers: Answers, run: Command -> Result<Output, string>)
    ensures var r := ConfigOutcome(iosPath, scheme, bundleId, nonInteractive, w, answers, run);
            var ios := ChosenIosPath(iosPath, IosPathOf(w));
            && (ios == [] ==> r == Err(NoIosProject))
            && (ios != [] && XcodeBuild.SchemesOutcome(w, ios, run).Err? ==>
                  r == Err(Xcode(XcodeBuild.Describe(XcodeBuild.SchemesOutcome(w, ios, run).error))))
            && (r.Ok? ==> Chosen(r.value, iosPath, scheme, bundleId, nonInteractive, w))
            && (scheme.None? && r.Ok? ==> r.value.project.scheme in XcodeBuild.SchemesOutcome(w, ios, run).value)
  {
    var ios := ChosenIosPath(iosPath, IosPathOf(w));
    if ios != [] && XcodeBuild.SchemesOutcome(w, ios, run).Ok? {
      var schemes := XcodeBuild.SchemesOutcome(w, ios, run).value;
      var chosen := SchemeChoice(scheme, schemes, nonInteractive, answers);
      if chosen.Ok? {
        SettingsOutcomeSpec(ios, chosen.value, bundleId, nonInteractive, w, answers, run);
      }
    }
  }

  /** Steps 4 and 5: the bundle identifier and the tag policy. */
  method ChooseSettings(ios: string, scheme: string, bundleId: Option<string>, nonInteractive: bool,
                        w: World, answers: Answers, run: Command -> Result<Output, string>)
    returns (r: Result<ProjectConfig.Config, InitError>, effects: seq<Effect>)
    ensures r == SettingsOutcome(ios, scheme, bundleId, nonInteractive, w, answers, run)
    ensures NoWrites(effects)
    ensures nonInteractive ==> Quiet(effects)
  {
    // The build settings are queried even when a bundle identifier is given.
    var probe, e3 := XcodeBuild.GetBundleId(w, ios, scheme, run);
    effects := e3;
    var bundle := ChooseBundleId(bundleId, nonInteractive, DetectedBundleId(probe), answers);
    AppendKeeps(effects, bundle.1);
    effects := effects + bundle.1;
    if bundle.0.Err? {
      return Err(bundle.0.error), effects;
    }

    var tags := TagPolicy(nonInteractive, answers);
    AppendKeeps(effects, tags.1);
    effects := effects + tags.1;
    if tags.0.Err? {
      return Err(tags.0.error), effects;
    }
    r := Ok(NewConfig(ios, scheme, bundle.0.value, tags.0.value));
  }

  /** Steps 2 to 5: the project directory, scheme, bundle identifier and tag policy. */
  method ChooseConfig(iosPath: Option<string>, scheme: Option<string>, bundleId: Option<string>, nonInteractive: bool,
                      w: World, answers: Answers, run: Command -> Result<Output, string>)
    returns (r: Result<ProjectConfig.Config, InitError>, effects: seq<Effect>)
    ensures r == ConfigOutcome(iosPath, scheme, bundleId, nonInteractive, w, answers, run)
    ensures NoWrites(effects)
    ensures nonInteractive ==> Quiet(effects)
    ensures ChosenIosPath(iosPath, IosPathOf(w)) == [] ==> r == Err(NoIosProject) && effects == []
    ensures r.Ok? ==> Chosen(r.value, iosPath, scheme, bundleId, nonInteractive, w)
  {
    ConfigOutcomeSpec(iosPath, scheme, bundleId, nonInteractive, w, answers, run);
    var detected: Option<string> := None;
    if iosPath.None? {
      detected := DetectIosPath(w);
    }
    var ios := ChosenIosPath(iosPath, detected);
    assert ios == ChosenIosPath(iosPath, IosPathOf(w));
    if ios == [] {
      return Err(NoIosProject), [];
    }

    var listed, e1 := XcodeBuild.ListSchemes(w, ios, run);
    effects := e1;
    if listed.Err? {
      return Err(Xcode(XcodeBuild.Describe(listed.error))), effects;
    }
    var chosen, e2 := SelectScheme(scheme, listed.value, nonInteractive, answers);
    AppendKeeps(effects, e2);
    effects := effects + e2;
    if chosen.Err? {
      return Err(chosen.error), effects;
    }

    var settings, e3 := ChooseSettings(ios, chosen.value, bundleId, nonInteractive, w, answers, run);
    AppendKeeps(effects, e3);
    effects := effects + e3;
    r := settings;
  }

  /** What steps 9 and 10 return: the Fastfile step's error, else the `.gitignore` step's result. */
  function FinishOutcome(w: World, iosPath: string, nonInteractive: bool, answers: Answers): Result<(), InitError> {
    match FastfileOutcome(w, iosPath, nonInteractive, answers)
    case Err(e) => Err(e)
    case Ok(_) => GitignoreOutcome(w, nonInteractive, answers)
  }

  /** What steps 9 and 10 do: the Fastfile step, then, unless it failed, the `.gitignore` step. */
  function FinishEffects(w: World, iosPath: string, generated: string, nonInteractive: bool, answers: Answers): seq<Effect> {
    FastfileEffects(w, iosPath, generated, nonInteractive, answers)
    + if FastfileOutcome(w, iosPath, nonInteractive, answers).Err? then [] else GitignoreEffects(w, nonInteractive, answers)
  }

  /** Step 9 asks nothing under `--yes`, writes only `generated` to the Fastfile, and
      writes it exactly when it creates it. */
  lemma FastfileEffectsSpec(w: World, iosPath: string, generated: string, nonInteractive: bool, answers: Answers)
    ensures var effects := FastfileEffects(w, iosPath, generated, nonInteractive, answers);
            && (nonInteractive ==> Quiet(effects))
            && (forall e | e in effects && e.WriteText? :: e == WriteText(FastfilePath(iosPath), generated))
            && (WriteText(FastfilePath(iosPath), generated) in effects <==> CreatesFastfile(w, iosPath, nonInteractive, answers))
  {
    var create := CreateFastfile(iosPath, generated);
    assert forall e | e in create && e.WriteText? :: e == WriteText(FastfilePath(iosPath), generated);
    if !HasFastfile(w, iosPath) && !nonInteractive {
      var rest := if answers.confirm(FastfilePrompt) == Ok(true) then create else [];
      assert forall e | e in [Ask(FastfilePrompt)] + rest :: e == Ask(FastfilePrompt) || e in rest;
    }
  }

  /** Step 10 asks nothing under `--yes` and writes nothing but `.gitignore`. */
  lemma GitignoreEffectsSpec(w: World, nonInteractive: bool, answers: Answers)
    ensures var effects := GitignoreEffects(w, nonInteractive, answers);
            && (nonInteractive ==> effects == [])
            && (forall e | e in effects && e.WriteText? :: e.path == GitignoreFileName)
  {
  }

  /** Steps 9 and 10 ask nothing under `--yes`, write only the Fastfile and `.gitignore`,
      write the Fastfile only with `generated`, and write it exactly when step 9 creates it. */
  lemma FinishEffectsSpec(w: World, iosPath: string, generated: string, nonInteractive: bool, answers: Answers)
    ensures var effects := FinishEffects(w, iosPath, generated, nonInteractive, answers);
            && (nonInteractive ==> Quiet(effects))
            && (forall e | e in effects && e.WriteText? :: e.path == FastfilePath(iosPath) || e.path == GitignoreFileName)
            && (forall e | e in effects && e.WriteText? && e.path == FastfilePath(iosPath) :: e.text == generated)
            && (WriteText(FastfilePath(iosPath), generated) in effects <==> CreatesFastfile(w, iosPath, nonInteractive, answers))
  {
    FastfileIsNoOtherFile(iosPath);
    FastfileEffectsSpec(w, iosPath, generated, nonInteractive, answers);
    GitignoreEffectsSpec(w, nonInteractive, answers);
    var e1 := FastfileEffects(w, iosPath, generated, nonInteractive, answers);
    var e2 := if FastfileOutcome(w, iosPath, nonInteractive, answers).Err? then [] else GitignoreEffects(w, nonInteractive, answers);
    AppendKeeps(e1, e2);
    WritesOfSteps(e1, e2, FastfilePath(iosPath), generated, GitignoreFileName);
  }

  /** Every Fastfile steps 9 and 10 write for a scheme defines the three lanes a deploy
      may run. */
  lemma CreatedFastfileHasLanes(w: World, iosPath: string, scheme: string, nonInteractive: bool, answers: Answers)
    ensures forall e | e in FinishEffects(w, iosPath, Templates.GenerateFastfile(scheme), nonInteractive, answers)
                       && e.WriteText? && e.path == FastfilePath(iosPath) ::
              && Contains(e.text, Templates.BetaLane)
              && Contains(e.text, Templates.BetaPatchLane)
              && Contains(e.text, Templates.BetaMinorLane)
  {
    FinishEffectsSpec(w, iosPath, Templates.GenerateFastfile(scheme), nonInteractive, answers);
    Templates.DefinesLanes(scheme);
  }

  /** Steps 9 and 10: the Fastfile generated for the scheme, then the `.gitignore` entry. */
  method FastfileAndGitignore(iosPath: string, scheme: string, nonInteractive: bool, w: World, answers: Answers)
    returns (r: Result<(), InitError>, effects: seq<Effect>)
    ensures r == FinishOutcome(w, iosPath, nonInteractive, answers)
    ensures effects == FinishEffects(w, iosPath, Templates.GenerateFastfile(scheme), nonInteractive, answers)
  {
    var fastfile, e1 := CheckAndCreateFastfile(w, iosPath, Templates.GenerateFastfile(scheme), nonInteractive, answers);
    effects := e1;
    if fastfile.Err? {
      assert effects == e1 + [];
      return Err(fastfile.error), effects;
    }
    var ignored, e2 := OfferGitignore(w, nonInteractive, answers);
    effects := effects + e2;
    r := ignored;
  }

  /** When a first step writes only `text` to `path` and a second writes only to
      another file, the writes to `path` are the first step's. */
  lemma WritesOfSteps(e1: seq<Effect>, e2: seq<Effect>, path: string, text: string, other: string)
    requires forall e | e in e1 && e.WriteText? :: e == WriteText(path, text)
    requires forall e | e in e2 && e.WriteText? :: e.path == other
    requires path != other
    ensures forall e | e in e1 + e2 && e.WriteText? :: e.path == path || e.path == other
    ensures forall e | e in e1 + e2 && e.WriteText? && e.path == path :: e.text == text
    ensures WriteText(path, text) in e1 + e2 <==> WriteText(path, text) in e1
  {
    assert forall e | e in e1 + e2 :: e in e1 || e in e2;
  }

  /** Whether some effect writes the Fastfile of `<iosPath>/fastlane`. */
  predicate WritesFastfile(effects: seq<Effect>, iosPath: string) {
    exists e | e in effects :: e.WriteText? && e.path == FastfilePath(iosPath)
  }

  /** What steps 7 to 10 do once the configuration renders as `text`: save it, write the
      example `exampleText` when there is none, then steps 9 and 10 with the Fastfile
      `generated` for `<iosPath>/fastlane`. */
  function WrittenEffects(text: string, iosPath: string, generated: string, exampleText: string,
                          nonInteractive: bool, w: World, answers: Answers): seq<Effect> {
    [WriteText(ProjectConfig.FileName, text)]
    + (if Exists(w, ExampleFileName) then [] else [WriteText(ExampleFileName, exampleText)])
    + FinishEffects(w, iosPath, generated, nonInteractive, answers)
  }

  /** Steps 7 to 10 save the configuration first, ask nothing under `--yes`, write
      only the files `init` owns, the example only when there was none, and the Fastfile
      only as `generated`, exactly when step 9 creates it. */
  lemma WrittenEffectsSpec(text: string, iosPath: string, generated: string, exampleText: string,
                           nonInteractive: bool, w: World, answers: Answers)
    ensures var effects := WrittenEffects(text, iosPath, generated, exampleText, nonInteractive, w, answers);
            && effects[0] == WriteText(ProjectConfig.FileName, text)
            && (nonInteractive ==> Quiet(effects))
            && WritesOnly(effects, iosPath)
            && (Exists(w, ExampleFileName) ==> forall e | e in effects && e.WriteText? :: e.path != ExampleFileName)
            && (!Exists(w, ExampleFileName) ==> WriteText(ExampleFileName, exampleText) in effects)
            && (forall e | e in effects && e.WriteText? && e.path == FastfilePath(iosPath) :: e.text == generated)
            && (WriteText(FastfilePath(iosPath), generated) in effects <==> CreatesFastfile(w, iosPath, nonInteractive, answers))
            && (WritesFastfile(effects, iosPath) <==> CreatesFastfile(w, iosPath, nonInteractive, answers))
  {
    FinishEffectsSpec(w, iosPath, generated, nonInteractive, answers);
    var example := if Exists(w, ExampleFileName) then [] else [WriteText(ExampleFileName, exampleText)];
    ConfigFirst(text, example, FinishEffects(w, iosPath, generated, nonInteractive, answers), iosPath, generated);
  }

  /** Saving the configuration, then writing the example, then steps whose writes go
      only to the Fastfile and `.gitignore`: the configuration comes first, the example
      writes are exactly `example`'s, and the Fastfile writes are the later steps'. */
  lemma ConfigFirst(text: string, example: seq<Effect>, rest: seq<Effect>, ios: string, generated: string)
    requires forall e | e in example :: e.WriteText? && e.path == ExampleFileName
    requires forall e | e in rest && e.WriteText? :: e.path == FastfilePath(ios) || e.path == GitignoreFileName
    requires forall e | e in rest && e.WriteText? && e.path == FastfilePath(ios) :: e.text == generated
    ensures var effects := [WriteText(ProjectConfig.FileName, text)] + example + rest;
            && effects[0] == WriteText(ProjectConfig.FileName, text)
            && WritesOnly(effects, ios)
            && (forall e | e in effects && e.WriteText? && e.path == ExampleFileName :: e in example)
            && (forall e | e in example :: e in effects)
            && (forall e | e in effects && e.WriteText? && e.path == FastfilePath(ios) :: e.text == generated)
            && (WriteText(FastfilePath(ios), generated) in effects <==> WriteText(FastfilePath(ios), generated) in rest)
            && (Quiet(rest) ==> Quiet(effects))
  {
    FastfileIsNoOtherFile(ios);
    FileNamesDistinct();
    var effects := [WriteText(ProjectConfig.FileName, text)] + example + rest;
    assert forall e | e in effects :: e == WriteText(ProjectConfig.FileName, text) || e in example || e in rest;
  }

  /** Steps 7 to 10: save the configuration, the example `exampleText` when there is
      none, the Fastfile for the chosen scheme, and the `.gitignore` entry. */
  method WriteFiles(c: ProjectConfig.Config, nonInteractive: bool, w: World, answers: Answers,
                    render: ProjectConfig.Config -> Result<string, string>, exampleText: string)
    returns (r: Result<(), InitError>, effects: seq<Effect>)
    ensures render(c).Err? ==> r == Err(Io(ProjectConfig.Describe(ProjectConfig.TomlSerialize(render(c).error)))) && effects == []
    // Once the configuration is saved, the result is that of steps 9 and 10.
    ensures render(c).Ok? ==> r == FinishOutcome(w, c.project.iosPath, nonInteractive, answers)
    ensures nonInteractive ==> Quiet(effects)
    ensures WritesOnly(effects, c.project.iosPath)
    ensures render(c).Ok? ==> effects != [] && effects[0] == WriteText(ProjectConfig.FileName, render(c).value)
    ensures Exists(w, ExampleFileName) ==> forall e | e in effects && e.WriteText? :: e.path != ExampleFileName
    ensures render(c).Ok? && !Exists(w, ExampleFileName) ==> WriteText(ExampleFileName, exampleText) in effects
    ensures render(c).Ok? ==> (WritesFastfile(effects, c.project.iosPath) <==> CreatesFastfile(w, c.project.iosPath, nonInteractive, answers))
  {
    var saved := ProjectConfig.Save(render(c));
    if saved.Err? {
      return Err(Io(ProjectConfig.Describe(saved.error))), [];
    }
    var example := if Exists(w, ExampleFileName) then [] else [WriteText(ExampleFileName, exampleText)];
    var rest;
    r, rest := FastfileAndGitignore(c.project.iosPath, c.project.scheme, nonInteractive, w, answers);
    effects := saved.value + example + rest;
    WrittenEffectsSpec(render(c).value, c.project.iosPath, Templates.GenerateFastfile(c.project.scheme), exampleText,
                       nonInteractive, w, answers);
  }

  /** Effects that write nothing, followed by others: the writes are the later
      effects', and the later effects' first write keeps its place after the prefix. */
  lemma AfterNoWrites(pre: seq<Effect>, rest: seq<Effect>, iosPath: string, at: nat)
    requires NoWrites(pre)
    ensures at < |rest| && NoWrites(rest[..at]) ==> (pre + rest)[|pre| + at] == rest[at] && NoWrites((pre + rest)[..|pre| + at])
    ensures WritesOnly(rest, iosPath) ==> WritesOnly(pre + rest, iosPath)
    ensures forall e | e in pre + rest && e.WriteText? :: e in rest
    ensures WritesFastfile(pre + rest, iosPath) <==> WritesFastfile(rest, iosPath)
    ensures Quiet(pre) && Quiet(rest) ==> Quiet(pre + rest)
  {
    assert forall e | e in pre + rest :: e in pre || e in rest;
    if at < |rest| {
      assert (pre + rest)[..|pre| + at] == pre + rest[..at];
      assert forall e | e in pre + rest[..at] :: e in pre || e in rest[..at];
    }
  }

  /** The configuration saved in step 7 when steps 2 to 6 end with `chosen`. */
  ghost function Saved(chosen: Result<ProjectConfig.Config, InitError>,
                       render: ProjectConfig.Config -> Result<string, string>): Option<ProjectConfig.Config> {
    if chosen.Ok? && render(chosen.value).Ok? then Some(chosen.value) else None
  }

  /** The result of steps 7 to 10 when steps 2 to 6 end with `chosen`: their error,
      the serialisation error, or the result of steps 9 and 10. */
  ghost function WriteOutcome(chosen: Result<ProjectConfig.Config, InitError>, w: World, nonInteractive: bool,
                              answers: Answers, render: ProjectConfig.Config -> Result<string, string>): Result<(), InitError> {
    match chosen
    case Err(e) => Err(e)
    case Ok(c) =>
      match render(c)
      case Err(m) => Err(Io(ProjectConfig.Describe(ProjectConfig.TomlSerialize(m))))
      case Ok(_) => FinishOutcome(w, c.project.iosPath, nonInteractive, answers)
  }

  /** The result of `run`: an existing configuration stops it, then each step's
      error in order decides it. */
  ghost function RunOutcome(iosPath: Option<string>, scheme: Option<string>, bundleId: Option<string>, nonInteractive: bool,
                            w: World, fastlaneFound: bool, answers: Answers,
                            run: Command -> Result<Output, string>,
                            render: ProjectConfig.Config -> Result<string, string>): Result<(), InitError> {
    if Exists(w, ProjectConfig.FileName) then Err(AlreadyInitialized)
    else match InstallOutcome(fastlaneFound, nonInteractive, answers, run)
      case Err(e) => Err(e)
      case Ok(_) => WriteOutcome(ConfigOutcome(iosPath, scheme, bundleId, nonInteractive, w, answers, run), w, nonInteractive, answers, render)
  }

  /** The configuration `run` saves, if any. */
  ghost function RunSaved(iosPath: Option<string>, scheme: Option<string>, bundleId: Option<string>, nonInteractive: bool,
                          w: World, fastlaneFound: bool, answers: Answers,
                          run: Command -> Result<Output, string>,
                          render: ProjectConfig.Config -> Result<string, string>): Option<ProjectConfig.Config> {
    if Exists(w, ProjectConfig.FileName) || InstallOutcome(fastlaneFound, nonInteractive, answers, run).Err? then None
    else Saved(ConfigOutcome(iosPath, scheme, bundleId, nonInteractive, w, answers, run), render)
  }

  /** `run` stops at the first step that fails and returns its error: an existing
      configuration, the fastlane installation (with or without `--yes`), the scheme
      listing (even with `--scheme`), the other choices, or serialisation; once the
      configuration is saved the result is that of steps 9 and 10, and a result of
      success means every step succeeded. */
  lemma RunOutcomeSpec(iosPath: Option<string>, scheme: Option<string>, bundleId: Option<string>,
                                          nonInteractive: bool, w: World, fastlaneFound: bool, answers: Answers,
                                          run: Command -> Result<Output, string>,
                                          render: ProjectConfig.Config -> Result<string, string>)
    ensures var r := RunOutcome(iosPath, scheme, bundleId, nonInteractive, w, fastlaneFound, answers, run, render);
            var written := RunSaved(iosPath, scheme, bundleId, nonInteractive, w, fastlaneFound, answers, run, render);
            var installed := InstallOutcome(fastlaneFound, nonInteractive, answers, run);
            var chosen := ConfigOutcome(iosPath, scheme, bundleId, nonInteractive, w, answers, run);
            && (Exists(w, ProjectConfig.FileName) ==> r == Err(AlreadyInitialized) && written.None?)
            && (!Exists(w, ProjectConfig.FileName) ==>
                  && (installed.Err? ==> r == installed && written.None?)
                  && (installed.Ok? && chosen.Err? ==> r == Err(chosen.error) && written.None?)
                  && (installed.Ok? && chosen.Ok? && render(chosen.value).Err? ==>
                        && r == Err(Io(ProjectConfig.Describe(ProjectConfig.TomlSerialize(render(chosen.value).error))))
                        && written.None?)
                  && (installed.Ok? && chosen.Ok? && render(chosen.value).Ok? ==>
                        && written == Some(chosen.value)
                        && r == FinishOutcome(w, chosen.value.project.iosPath, nonInteractive, answers)))
            && (r.Ok? <==> installed.Ok? && written.Some? && FinishOutcome(w, written.value.project.iosPath, nonInteractive, answers).Ok?)
  {
  }

  /** Steps 2 to 10 once fastlane is available: choose the configuration, then write
      the files, with `exampleText` for the example; `written` is the configuration
      saved, if any. */
  method ChooseAndWrite(iosPath: Option<string>, scheme: Option<string>, bundleId: Option<string>, nonInteractive: bool,
                        w: World, answers: Answers,
                        run: Command -> Result<Output, string>,
                        render: ProjectConfig.Config -> Result<string, string>, exampleText: string)
    returns (r: Result<(), InitError>, effects: seq<Effect>, ghost written: Option<ProjectConfig.Config>, ghost savedAt: nat)
    ensures r == WriteOutcome(ConfigOutcome(iosPath, scheme, bundleId, nonInteractive, w, answers, run), w, nonInteractive, answers, render)
    ensures written == Saved(ConfigOutcome(iosPath, scheme, bundleId, nonInteractive, w, answers, run), render)
    ensures nonInteractive ==> Quiet(effects)
    ensures written.None? ==> NoWrites(effects)
    ensures written.Some? ==>
              && Chosen(written.value, iosPath, scheme, bundleId, nonInteractive, w)
              && render(written.value).Ok?
              && WritesOnly(effects, written.value.project.iosPath)
              && savedAt < |effects| && effects[savedAt] == WriteText(ProjectConfig.FileName, render(written.value).value)
              && NoWrites(effects[..savedAt])
    ensures ChosenIosPath(iosPath, IosPathOf(w)) == [] ==> written.None? && r.Err?
    ensures Exists(w, ExampleFileName) ==> forall e | e in effects && e.WriteText? :: e.path != ExampleFileName
    ensures written.Some? && !Exists(w, ExampleFileName) ==> WriteText(ExampleFileName, exampleText) in effects
    ensures written.Some? ==>
              (WritesFastfile(effects, written.value.project.iosPath) <==> CreatesFastfile(w, written.value.project.iosPath, nonInteractive, answers))
  {
    written, savedAt := None, 0;
    var chosen;
    chosen, effects := ChooseConfig(iosPath, scheme, bundleId, nonInteractive, w, answers, run);
    if chosen.Err? {
      return Err(chosen.error), effects, None, 0;
    }
    var wrote, e3 := WriteFiles(chosen.value, nonInteractive, w, answers, render, exampleText);
    AfterNoWrites(effects, e3, chosen.value.project.iosPath, 0);
    if render(chosen.value).Ok? {
      written, savedAt := Some(chosen.value), |effects|;
    }
    effects := effects + e3;
    r := wrote;
  }

  /** `run`. `fastlaneFound` is whether `fastlane` is on the path, `run` stands for the
      processes started, `render` for TOML serialisation, and `exampleText` for the
      example configuration the command writes, `Templates.LaunchpadTomlExample`.
      Paths are looked up in `w` as they were when the command started, which the
      command's own writes do not change for any path it looks at later. */
  method Run(iosPath: Option<string>, scheme: Option<string>, bundleId: Option<string>, nonInteractive: bool,
             w: World, fastlaneFound: bool, answers: Answers,
             run: Command -> Result<Output, string>,
             render: ProjectConfig.Config -> Result<string, string>, exampleText: string)
    returns (r: Result<(), InitError>, effects: seq<Effect>, ghost written: Option<ProjectConfig.Config>, ghost savedAt: nat)
    // An existing configuration is never overwritten.
    ensures Exists(w, ProjectConfig.FileName) ==> r == Err(AlreadyInitialized) && effects == []
    // `--yes` never asks anything.
    ensures nonInteractive ==> Quiet(effects)
    // Nothing is written until a configuration has been chosen, and then it is written first.
    ensures written.None? ==> NoWrites(effects)
    ensures written.Some? ==>
              && Chosen(written.value, iosPath, scheme, bundleId, nonInteractive, w)
              && render(written.value).Ok?
              && WriteText(ProjectConfig.FileName, render(written.value).value) in effects
              && WritesOnly(effects, written.value.project.iosPath)
    ensures !Exists(w, ProjectConfig.FileName) && ChosenIosPath(iosPath, IosPathOf(w)) == [] ==> written.None? && r.Err?
    ensures r.Ok? ==> written.Some?
    // The steps run in order and the first that fails decides the result; once the
    // configuration is saved, the result is that of the Fastfile and `.gitignore` steps.
    ensures r == RunOutcome(iosPath, scheme, bundleId, nonInteractive, w, fastlaneFound, answers, run, render)
    ensures written == RunSaved(iosPath, scheme, bundleId, nonInteractive, w, fastlaneFound, answers, run, render)
    // The configuration is the first file written.
    ensures written.Some? ==>
              && savedAt < |effects| && effects[savedAt] == WriteText(ProjectConfig.FileName, render(written.value).value)
              && NoWrites(effects[..savedAt])
    // The Fastfile is written exactly when step 9 creates it.
    ensures written.Some? ==>
              (WritesFastfile(effects, written.value.project.iosPath) <==> CreatesFastfile(w, written.value.project.iosPath, nonInteractive, answers))
    // The example is written only when there was none.
    ensures Exists(w, ExampleFileName) ==> forall e | e in effects && e.WriteText? :: e.path != ExampleFileName
    ensures written.Some? && !Exists(w, ExampleFileName) ==> WriteText(ExampleFileName, exampleText) in effects
  {
    if Exists(w, ProjectConfig.FileName) {
      r, effects, written, savedAt := Err(AlreadyInitialized), [], None, 0;
    } else {
      var installed, e1 := CheckAndInstallFastlane(fastlaneFound, nonInteractive, answers, run);
      if installed.Err? {
        r, effects, written, savedAt := Err(installed.error), e1, None, 0;
      } else {
        var e2; ghost var at;
        r, e2, written, at := ChooseAndWrite(iosPath, scheme, bundleId, nonInteractive, w, answers, run, render,
                                                   exampleText);
        if written.Some? {
          AfterNoWrites(e1, e2, written.value.project.iosPath, at);
        } else {
          AppendKeeps(e1, e2);
        }
        effects, savedAt := e1 + e2, |e1| + at;
      }
    }
  }
}
