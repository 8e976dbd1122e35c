/** The per-repository configuration, `.launchpad.toml` in the working directory. */
module ProjectConfig {
  import opened Wrappers
  import opened Env

  const FileName := ".launchpad.toml"

  datatype ProjectSettings = ProjectSettings(iosPath: string, scheme: string, bundleId: string)

  datatype DeploySettings = DeploySettings(gitTag: bool, pushTags: bool, cleanArtifacts: bool)

  datatype Config = Config(project: ProjectSettings, deploy: DeploySettings)

  /** What the TOML reader finds in the file before defaults are applied: each
      table present or not (a `[project]` table missing one of its strings counts
      as absent) and each `deploy` boolean given or omitted. */
  datatype TomlDeploy = TomlDeploy(gitTag: Option<bool>, pushTags: Option<bool>, cleanArtifacts: Option<bool>)
  datatype TomlDocument = TomlDocument(project: Option<ProjectSettings>, deploy: Option<TomlDeploy>)

  datatype ProjectConfigError =
    | Io(reason: string)
    | TomlParse(reason: string)
    | TomlSerialize(reason: string)

  /** The `Display` text of a project configuration error. */
  function Describe(e: ProjectConfigError): string {
    match e
    case Io(m) => "IO error: " + m
    case TomlParse(m) => "TOML parse error: " + m
    case TomlSerialize(m) => "TOML serialize error: " + m
  }

  /** `default_true`, the value of an omitted `deploy` boolean. */
  function DefaultTrue(): bool {
    true
  }

  /** `DeploySettings::default()`. */
  function DefaultDeploy(): (d: DeploySettings)
    ensures d.gitTag && d.pushTags && d.cleanArtifacts
  {
    DeploySettings(DefaultTrue(), DefaultTrue(), DefaultTrue())
  }

  function OrDefault(b: Option<bool>): bool {
    match b
    case Some(v) => v
    case None => DefaultTrue()
  }

  /** Deserialising the `[deploy]` table: a given boolean is kept, an omitted one is true. */
  function DecodeDeploy(t: TomlDeploy): (d: DeploySettings)
    ensures d.gitTag == (t.gitTag != Some(false))
    ensures d.pushTags == (t.pushTags != Some(false))
    ensures d.cleanArtifacts == (t.cleanArtifacts != Some(false))
  {
    DeploySettings(OrDefault(t.gitTag), OrDefault(t.pushTags), OrDefault(t.cleanArtifacts))
  }

  /** An empty `[deploy]` table gives the same settings as `DeploySettings::default()`. */
  lemma EmptyDeployIsDefault()
    ensures DecodeDeploy(TomlDeploy(None, None, None)) == DefaultDeploy()
  {
  }

  /** Deserialising the document: both tables are required. */
  function Decode(doc: TomlDocument): (r: Result<Config, string>)
    ensures r.Ok? <==> doc.project.Some? && doc.deploy.Some?
    ensures r.Ok? ==> r.value.project == doc.project.value && r.value.deploy == DecodeDeploy(doc.deploy.value)
  {
    match (doc.project, doc.deploy)
    case (Some(p), Some(d)) => Ok(Config(p, DecodeDeploy(d)))
    case (None, _) => Err("missing field `project`")
    case (Some(_), None) => Err("missing field `deploy`")
  }

  /** `load`: no file is `None`, not an error. `parse` is the TOML reader. */
  function Load(w: World, parse: string -> Result<TomlDocument, string>): Result<Option<Config>, ProjectConfigError> {
    if !Exists(w, FileName) then Ok(None)
    else if FileName !in w.files then Err(Io(DirectoryReadError))
    else
      match w.files[FileName]
      case Unreadable(m) => Err(Io(m))
      case Readable(text) =>
        match parse(text)
        case Err(m) => Err(TomlParse(m))
        case Ok(doc) =>
          match Decode(doc)
          case Err(m) => Err(TomlParse(m))
          case Ok(c) => Ok(Some(c))
  }

  /** `load` is `Ok(None)` exactly when `.launchpad.toml` is absent; when it gives
      a configuration, its `deploy` booleans are the file's, omitted ones true. */
  lemma LoadAbsentIsNone(w: World, parse: string -> Result<TomlDocument, string>)
    ensures Load(w, parse) == Ok(None) <==> !Exists(w, FileName)
    ensures Load(w, parse).Ok? && Load(w, parse).value.Some? ==>
              && FileName in w.files && w.files[FileName].Readable?
              && var doc := parse(w.files[FileName].text);
              && doc.Ok? && doc.value.deploy.Some?
              && Load(w, parse).value.value.deploy == DecodeDeploy(doc.value.deploy.value)
  {
  }

  /** `save`: write the rendered TOML to `.launchpad.toml`, whether or not it exists.
      `rendered` is what the TOML writer makes of the configuration. */
  function Save(rendered: Result<string, string>): (r: Result<seq<Effect>, ProjectConfigError>)
    ensures rendered.Err? ==> r == Err(TomlSerialize(rendered.error))
    ensures rendered.Ok? ==> r == Ok([WriteText(FileName, rendered.value)])
  {
    match rendered
    case Err(m) => Err(TomlSerialize(m))
    case Ok(text) => Ok([WriteText(FileName, text)])
  }

  /** `save` overwrites the one file `load` reads. */
  lemma SaveWritesLoadPath(rendered: Result<string, string>)
    requires rendered.Ok?
    ensures Save(rendered).Ok?
    ensures forall e | e in Save(rendered).value :: e.WriteText? && e.path == FileName
  {
  }
}
