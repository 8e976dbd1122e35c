/** `launchpad deploy`: check the configurations, the key file and the working tree,
    run the lane, then tag the release and push the tag, both on a best-effort basis. */
module Deploy {
  import opened Wrappers
  import opened Env
  import GlobalConfig
  import ProjectConfig
  import Fastlane

  datatype DeployError =
    | NoGlobalConfig
    | NoProjectConfig
    | ApiKeyNotFound(path: string)
    | DirtyWorkingDirectory
    | FastlaneFailed(message: string)
    | GitTagFailed(message: string)
    | Io(reason: string)
    | Config(message: string)

  /** The `Display` text of a deploy error. */
  function Describe(e: DeployError): string {
    match e
    case NoGlobalConfig => "Global config not found. Run 'launchpad setup' first."
    case NoProjectConfig => "Project config not found. Run 'launchpad init' first."
    case ApiKeyNotFound(p) => "Apple API key not found at: " + p
    case DirtyWorkingDirectory => "Git working directory is not clean. Commit or stash changes first."
    case FastlaneFailed(m) => "Fastlane failed: " + m
    case GitTagFailed(m) => "Failed to create git tag: " + m
    case Io(m) => "IO error: " + m
    case Config(m) => "Config error: " + m
  }

  // ---------------------------------------------------------------- decisions

  /** The version bump the flags ask for; `None` is a build-number-only deploy. */
  function VersionBump(patch: bool, minor: bool): Option<string> {
    if patch then Some("patch") else if minor then Some("minor") else None
  }

  /** How the deploy is announced. */
  function Action(versionBump: Option<string>): string {
    match versionBump
    case Some("patch") => "patch version bump"
    case Some("minor") => "minor version bump"
    case _ => "build number increment"
  }

  /** `--patch` wins over `--minor`; the announcement and the lane agree with the bump. */
  lemma BumpSelection(patch: bool, minor: bool)
    ensures var bump := VersionBump(patch, minor);
            && (patch ==> bump == Some("patch") && Fastlane.Lane(bump) == "beta_patch" && Action(bump) == "patch version bump")
            && (!patch && minor ==> bump == Some("minor") && Fastlane.Lane(bump) == "beta_minor" && Action(bump) == "minor version bump")
            && (!patch && !minor ==> bump.None? && Fastlane.Lane(bump) == "beta" && Action(bump) == "build number increment")
  {
  }

  /** Whether a release is tagged: not disabled by `--no-tag`, and enabled in the project. */
  function ShouldTag(noTag: bool, gitTag: bool): bool {
    !noTag && gitTag
  }

  /** The tag of a released version. */
  function TagName(version: string): string {
    "v" + version
  }

  /** The message `create_git_tag` gives a tag. */
  function TagMessage(tag: string): string {
    "Release " + tag
  }

  const GitStatus := Plain("git", ["status", "--porcelain"])
  const PushTags := Plain("git", ["push", "--tags"])

  /** `git tag -a <tag> -m "Release <tag>"`. */
  function TagCommand(tag: string): Command {
    Plain("git", ["tag", "-a", tag, "-m", TagMessage(tag)])
  }

  /** The tag command names `v<version>` and the message `Release v<version>`. */
  lemma TagCommandNames(version: string)
    ensures TagCommand(TagName(version)).args[2] == "v" + version
    ensures TagCommand(TagName(version)).args[4] == "Release v" + version
  {
  }

  /** `is_git_clean`: the tree is clean exactly when `git status --porcelain` prints
      nothing on stdout; its exit status is not looked at. */
  function IsGitClean(run: Result<Output, string>): (r: Result<bool, string>)
    ensures run.Err? <==> r.Err?
    ensures run.Ok? ==> (r.value <==> run.value.stdout == [])
  {
    match run
    case Err(m) => Err(m)
    case Ok(out) => Ok(out.stdout == [])
  }

  /** What `create_git_tag` and `push_git_tags` make of a finished `git` command. */
  function GitOutcome(run: Result<Output, string>): (r: Result<(), DeployError>)
    ensures r.Ok? <==> run.Ok? && run.value.success
  {
    match run
    case Err(m) => Err(Io(m))
    case Ok(out) => if out.success then Ok(()) else Err(GitTagFailed(out.stderr))
  }

  /** The `git` commands run after a successful lane that reported `version`: the
      tag when tagging is on, then the push when the tag was made and pushing is on. */
  function TagEffects(version: string, shouldTag: bool, pushTags: bool, git: Command -> Result<Output, string>): seq<Effect> {
    if !shouldTag then []
    else
      var tag := TagCommand(TagName(version));
      [Spawn(tag)] + if GitOutcome(git(tag)).Ok? && pushTags then [Spawn(PushTags)] else []
  }

  /** A tag is attempted exactly when tagging is on, it is `v<version>`, and the push
      follows only a tag that was made, and only when pushing is on. */
  lemma TagPolicy(version: string, shouldTag: bool, pushTags: bool, git: Command -> Result<Output, string>)
    ensures var effects := TagEffects(version, shouldTag, pushTags, git);
            var tag := TagCommand("v" + version);
            && (Spawn(tag) in effects <==> shouldTag)
            && (Spawn(PushTags) in effects <==> shouldTag && pushTags && git(tag).Ok? && git(tag).value.success)
            && forall e | e in effects :: e == Spawn(tag) || e == Spawn(PushTags)
  {
    assert TagCommand(TagName(version)) == TagCommand("v" + version);
    assert TagCommand("v" + version) != PushTags by {
      assert |TagCommand("v" + version).args| != |PushTags.args|;
    }
  }

  // ---------------------------------------------------------------- the workflow

  /** Both configurations load and are present. */
  predicate ConfigsPresent(global: Result<Option<GlobalConfig.Config>, GlobalConfig.ConfigError>,
                           project: Result<Option<ProjectConfig.Config>, ProjectConfig.ProjectConfigError>) {
    global.Ok? && global.value.Some? && project.Ok? && project.value.Some?
  }

  /** Everything `run` checks before it builds holds. */
  predicate Validated(w: World, global: Result<Option<GlobalConfig.Config>, GlobalConfig.ConfigError>,
                      project: Result<Option<ProjectConfig.Config>, ProjectConfig.ProjectConfigError>,
                      skipGitCheck: bool, git: Command -> Result<Output, string>) {
    && ConfigsPresent(global, project)
    && Exists(w, w.expandTilde(global.value.value.apple.keyPath))
    && (skipGitCheck || IsGitClean(git(GitStatus)) == Ok(true))
  }

  /** The checks `run` makes before it builds, in order: both configurations, the key
      file, then (unless skipped) the working tree. On success, the two configurations. */
  method Preflight(skipGitCheck: bool, w: World,
                   parseGlobal: string -> Result<GlobalConfig.Config, string>,
                   parseProject: string -> Result<ProjectConfig.TomlDocument, string>,
                   git: Command -> Result<Output, string>)
    returns (r: Result<(GlobalConfig.Config, ProjectConfig.Config), DeployError>, effects: seq<Effect>)
    ensures var g := GlobalConfig.Load(w, parseGlobal);
            var p := ProjectConfig.Load(w, parseProject);
            && (g.Err? ==> r == Err(Config(GlobalConfig.Describe(g.error))) && effects == [])
            && (g == Ok(None) ==> r == Err(NoGlobalConfig) && effects == [])
            && (g.Ok? && g.value.Some? && p.Err? ==> r == Err(Config(ProjectConfig.Describe(p.error))) && effects == [])
            && (g.Ok? && g.value.Some? && p == Ok(None) ==> r == Err(NoProjectConfig) && effects == [])
            && (ConfigsPresent(g, p) && !Exists(w, w.expandTilde(g.value.value.apple.keyPath)) ==>
                  r == Err(ApiKeyNotFound(w.expandTilde(g.value.value.apple.keyPath))) && effects == [])
    ensures effects == [] || (!skipGitCheck && effects == [Spawn(GitStatus)])
    ensures var g := GlobalConfig.Load(w, parseGlobal);
            var p := ProjectConfig.Load(w, parseProject);
            ConfigsPresent(g, p) && Exists(w, w.expandTilde(g.value.value.apple.keyPath)) && !skipGitCheck ==>
              && effects == [Spawn(GitStatus)]
              && (git(GitStatus).Err? ==> r == Err(Io(git(GitStatus).error)))
              && (git(GitStatus).Ok? && git(GitStatus).value.stdout != [] ==> r == Err(DirtyWorkingDirectory))
    ensures var g := GlobalConfig.Load(w, parseGlobal);
            var p := ProjectConfig.Load(w, parseProject);
            && (r.Ok? <==> Validated(w, g, p, skipGitCheck, git))
            && (r.Ok? ==> r.value == (g.value.value, p.value.value))
  {
    var globalConfig := GlobalConfig.Load(w, parseGlobal);
    if globalConfig.Err? {
      return Err(Config(GlobalConfig.Describe(globalConfig.error))), [];
    }
    if globalConfig.value.None? {
      return Err(NoGlobalConfig), [];
    }
    var global := globalConfig.value.value;

    var projectConfig := ProjectConfig.Load(w, parseProject);
    if projectConfig.Err? {
      return Err(Config(ProjectConfig.Describe(projectConfig.error))), [];
    }
    if projectConfig.value.None? {
      return Err(NoProjectConfig), [];
    }
    var project := projectConfig.value.value;

    var keyPath := w.expandTilde(global.apple.keyPath);
    if !Exists(w, keyPath) {
      return Err(ApiKeyNotFound(keyPath)), [];
    }

    effects := [];
    if !skipGitCheck {
      effects := [Spawn(GitStatus)];
      var clean := IsGitClean(git(GitStatus));
      if clean.Err? {
        return Err(Io(clean.error)), effects;
      }
      if !clean.value {
        return Err(DirtyWorkingDirectory), effects;
      }
    }
    r := Ok((global, project));
  }

  /** What `run` does once every check passed: run the lane, then tag the reported
      version and push the tag, both on a best-effort basis. */
  method Release(global: GlobalConfig.Config, project: ProjectConfig.Config, expandTilde: string -> string,
                 patch: bool, minor: bool, noTag: bool,
                 git: Command -> Result<Output, string>, fastlane: Command -> Fastlane.FastlaneRun)
    returns (r: Result<(), DeployError>, effects: seq<Effect>)
    ensures var cmd := Fastlane.DeployCommand(Fastlane.New(global, project, expandTilde), VersionBump(patch, minor));
            var outcome := Fastlane.Outcome(fastlane(cmd));
            && (outcome.Err? ==> r == Err(FastlaneFailed(Fastlane.Describe(outcome.error))) && effects == [Spawn(cmd)])
            && (outcome.Ok? ==>
                  && r == Ok(())
                  && effects == [Spawn(cmd)] + TagEffects(outcome.value, ShouldTag(noTag, project.deploy.gitTag), project.deploy.pushTags, git))
  {
    var versionBump := VersionBump(patch, minor);
    var fl := Fastlane.New(global, project, expandTilde);
    var result;
    result, effects := Fastlane.Deploy(fl, versionBump, fastlane);
    match result {
    case Err(e) =>
      r := Err(FastlaneFailed(Fastlane.Describe(e)));
    case Ok(version) =>
      if ShouldTag(noTag, project.deploy.gitTag) {
        var tag := TagName(version);
        effects := effects + [Spawn(TagCommand(tag))];
        var tagged := GitOutcome(git(TagCommand(tag)));
        if tagged.Ok? && project.deploy.pushTags {
          effects := effects + [Spawn(PushTags)];
          // A failed push is only reported as a warning.
          var pushed := GitOutcome(git(PushTags));
        }
      }
      r := Ok(());
    }
  }

  /** The checks start no `fastlane`. */
  lemma ChecksSpawnNoLane(checked: seq<Effect>)
    requires checked == [] || checked == [Spawn(GitStatus)]
    ensures !Spawns(checked, "fastlane")
  {
  }

  /** Effects followed by a `fastlane` run include one. */
  lemma LaneSpawned(checked: seq<Effect>, ran: seq<Effect>)
    requires ran != [] && ran[0].Spawn? && ran[0].cmd.program == "fastlane"
    ensures Spawns(checked + ran, "fastlane")
  {
    assert (checked + ran)[|checked|] == ran[0];
  }

  /** `run`: the configurations are read from `w` with the TOML readers `parseGlobal`
      and `parseProject`; `git` and `fastlane` stand for the processes it starts. */
  method Run(patch: bool, minor: bool, noTag: bool, skipGitCheck: bool, w: World,
             parseGlobal: string -> Result<GlobalConfig.Config, string>,
             parseProject: string -> Result<ProjectConfig.TomlDocument, string>,
             git: Command -> Result<Output, string>,
             fastlane: Command -> Fastlane.FastlaneRun)
    returns (r: Result<(), DeployError>, effects: seq<Effect>)
    // The checks, in order; the first that fails is the result and nothing has run.
    ensures var g := GlobalConfig.Load(w, parseGlobal);
            var p := ProjectConfig.Load(w, parseProject);
            && (g.Err? ==> r == Err(Config(GlobalConfig.Describe(g.error))) && effects == [])
            && (g == Ok(None) ==> r == Err(NoGlobalConfig) && effects == [])
            && (g.Ok? && g.value.Some? && p.Err? ==> r == Err(Config(ProjectConfig.Describe(p.error))) && effects == [])
            && (g.Ok? && g.value.Some? && p == Ok(None) ==> r == Err(NoProjectConfig) && effects == [])
            && (ConfigsPresent(g, p) && !Exists(w, w.expandTilde(g.value.value.apple.keyPath)) ==>
                  r == Err(ApiKeyNotFound(w.expandTilde(g.value.value.apple.keyPath))) && effects == [])
    // The git check: skipped entirely, or run first, and a dirty tree stops the deploy.
    ensures skipGitCheck ==> Spawn(GitStatus) !in effects
    ensures !skipGitCheck && effects != [] ==> effects[0] == Spawn(GitStatus)
    ensures var g := GlobalConfig.Load(w, parseGlobal);
            var p := ProjectConfig.Load(w, parseProject);
            ConfigsPresent(g, p) && Exists(w, w.expandTilde(g.value.value.apple.keyPath)) && !skipGitCheck ==>
              && (git(GitStatus).Err? ==> r == Err(Io(git(GitStatus).error)) && effects == [Spawn(GitStatus)])
              && (git(GitStatus).Ok? && git(GitStatus).value.stdout != [] ==>
                    r == Err(DirtyWorkingDirectory) && effects == [Spawn(GitStatus)])
    // The lane runs exactly when every check passed; what follows depends only on how it went.
    ensures Spawns(effects, "fastlane") <==> Validated(w, GlobalConfig.Load(w, parseGlobal), ProjectConfig.Load(w, parseProject), skipGitCheck, git)
    ensures var g := GlobalConfig.Load(w, parseGlobal);
            var p := ProjectConfig.Load(w, parseProject);
            Validated(w, g, p, skipGitCheck, git) ==>
              var config := p.value.value;
              var cmd := Fastlane.DeployCommand(Fastlane.New(g.value.value, config, w.expandTilde), VersionBump(patch, minor));
              var outcome := Fastlane.Outcome(fastlane(cmd));
              var checked := if skipGitCheck then [] else [Spawn(GitStatus)];
              && (outcome.Err? ==> r == Err(FastlaneFailed(Fastlane.Describe(outcome.error))) && effects == checked + [Spawn(cmd)])
              && (outcome.Ok? ==>
                    && r == Ok(())
                    && effects == checked + [Spawn(cmd)]
                                  + TagEffects(outcome.value, ShouldTag(noTag, config.deploy.gitTag), config.deploy.pushTags, git))
  {
    var checks, checked := Preflight(skipGitCheck, w, parseGlobal, parseProject, git);
    if checks.Err? {
      ChecksSpawnNoLane(checked);
      return Err(checks.error), checked;
    }
    var (global, project) := checks.value;
    var ran;
    r, ran := Release(global, project, w.expandTilde, patch, minor, noTag, git, fastlane);
    effects := checked + ran;
    LaneSpawned(checked, ran);
  }
}
