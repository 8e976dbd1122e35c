/** The machine-wide configuration: App Store Connect API credentials, taken from
    three environment variables or from `config.toml` in the configuration directory. */
module GlobalConfig {
  import opened Wrappers
  import opened Env

  datatype AppleConfig = AppleConfig(keyId: string, issuerId: string, keyPath: string)

  /** The `[apple]` table of `config.toml`. */
  datatype Config = Config(apple: AppleConfig)

  datatype ConfigError =
    | Io(reason: string)
    | TomlParse(reason: string)
    | TomlSerialize(reason: string)
    | NoConfigDir

  /** The `Display` text of a configuration error. */
  function Describe(e: ConfigError): string {
    match e
    case Io(m) => "IO error: " + m
    case TomlParse(m) => "TOML parse error: " + m
    case TomlSerialize(m) => "TOML serialize error: " + m
    case NoConfigDir => "Could not determine config directory"
  }

  const ConfigDirVar := "LAUNCHPAD_CONFIG_DIR"
  const KeyIdVar := "APPLE_API_KEY_ID"
  const IssuerIdVar := "APPLE_API_ISSUER_ID"
  const KeyPathVar := "APPLE_API_KEY_PATH"
  const DefaultDirName := ".launchpad"
  const FileName := "config.toml"

  /** `config_dir`: the override variable verbatim, else `<home>/.launchpad`, else nothing. */
  function ConfigDir(w: World): (d: Option<string>)
    ensures ConfigDirVar in w.vars ==> d == Some(w.vars[ConfigDirVar])
    ensures ConfigDirVar !in w.vars && w.home.Some? ==> d == Some(PathJoin(w.home.value, DefaultDirName))
    ensures d.None? <==> ConfigDirVar !in w.vars && w.home.None?
  {
    match Var(w, ConfigDirVar)
    case Some(p) => Some(p)
    case None =>
      match w.home
      case Some(h) => Some(PathJoin(h, DefaultDirName))
      case None => None
  }

  /** `config_path`: `config.toml` inside the configuration directory. */
  function ConfigPath(w: World): (p: Option<string>)
    ensures p.Some? <==> ConfigDir(w).Some?
    ensures p.Some? ==> p.value == PathJoin(ConfigDir(w).value, FileName)
  {
    match ConfigDir(w)
    case Some(d) => Some(PathJoin(d, FileName))
    case None => None
  }

  /** The configuration the three credential variables give, when all three are set. */
  function FromEnvironment(w: World): Option<Config> {
    match (Var(w, KeyIdVar), Var(w, IssuerIdVar), Var(w, KeyPathVar))
    case (Some(id), Some(issuer), Some(path)) => Some(Config(AppleConfig(id, issuer, path)))
    case _ => None
  }

  /** `load`: the environment first; then the file, absent being `None`, not an error.
      `parse` is the TOML reader. */
  function Load(w: World, parse: string -> Result<Config, string>): Result<Option<Config>, ConfigError> {
    match FromEnvironment(w)
    case Some(c) => Ok(Some(c))
    case None =>
      match ConfigPath(w)
      case None => Err(NoConfigDir)
      case Some(path) =>
        if !Exists(w, path) then Ok(None)
        else if path !in w.files then Err(Io(DirectoryReadError))
        else
          match w.files[path]
          case Unreadable(m) => Err(Io(m))
          case Readable(text) =>
            match parse(text)
            case Ok(c) => Ok(Some(c))
            case Err(m) => Err(TomlParse(m))
  }

  /** With all three credential variables set, `load` returns them and reads no file:
      the result is the same whatever the files, the home directory or the parser. */
  lemma EnvironmentOverrides(w: World, parse: string -> Result<Config, string>, w': World, parse': string -> Result<Config, string>)
    requires KeyIdVar in w.vars && IssuerIdVar in w.vars && KeyPathVar in w.vars
    requires w'.vars == w.vars
    ensures Load(w, parse) == Ok(Some(Config(AppleConfig(w.vars[KeyIdVar], w.vars[IssuerIdVar], w.vars[KeyPathVar]))))
    ensures Load(w', parse') == Load(w, parse)
  {
  }

  /** With any credential variable unset, `load` is the file's answer: no directory,
      `NoConfigDir`; no file, `None`; malformed text, a parse error; else the parsed file. */
  lemma FileFallback(w: World, parse: string -> Result<Config, string>)
    requires KeyIdVar !in w.vars || IssuerIdVar !in w.vars || KeyPathVar !in w.vars
    ensures ConfigPath(w).None? ==> Load(w, parse) == Err(NoConfigDir)
    ensures ConfigPath(w).Some? && !Exists(w, ConfigPath(w).value) ==> Load(w, parse) == Ok(None)
    ensures ConfigPath(w).Some? && ConfigPath(w).value in w.files ==>
              var f := w.files[ConfigPath(w).value];
              && (f.Readable? && parse(f.text).Err? ==> Load(w, parse) == Err(TomlParse(parse(f.text).error)))
              && (f.Readable? && parse(f.text).Ok? ==> Load(w, parse) == Ok(Some(parse(f.text).value)))
    ensures Load(w, parse).Ok? && Load(w, parse).value.Some? ==>
              ConfigPath(w).Some? && ConfigPath(w).value in w.files && w.files[ConfigPath(w).value].Readable?
  {
    assert FromEnvironment(w).None?;
    match ConfigPath(w)
    case None =>
    case Some(path) =>
      if Exists(w, path) && path in w.files {
        match w.files[path]
        case Unreadable(m) =>
        case Readable(text) =>
      }
  }

  /** `save`: create the configuration directory, then render the TOML, then write
      it to `config_path`. `rendered` is what the TOML writer makes of the
      configuration. The result comes with the effects performed, so a rendering
      failure still leaves the directory created. */
  function Save(w: World, rendered: Result<string, string>): (r: (Result<(), ConfigError>, seq<Effect>))
    ensures ConfigPath(w).None? ==> r == (Err(NoConfigDir), [])
    ensures ConfigPath(w).Some? && rendered.Err? ==>
              r == (Err(TomlSerialize(rendered.error)), [CreateDirAll(ConfigDir(w).value)])
    ensures ConfigPath(w).Some? && rendered.Ok? ==>
              r == (Ok(()), [CreateDirAll(ConfigDir(w).value), WriteText(ConfigPath(w).value, rendered.value)])
  {
    match ConfigPath(w)
    case None => (Err(NoConfigDir), [])
    case Some(path) =>
      var dir := ConfigDir(w).value;
      match rendered
      case Err(m) => (Err(TomlSerialize(m)), [CreateDirAll(dir)])
      case Ok(text) => (Ok(()), [CreateDirAll(dir), WriteText(path, text)])
  }

  /** `save` writes only the very file that a later `load` falls back to, and only
      after creating the directory that holds it; a failed `save` writes nothing. */
  lemma SaveWritesLoadPath(w: World, rendered: Result<string, string>)
    ensures var (r, effects) := Save(w, rendered);
            && (forall e | e in effects && e.WriteText? :: Some(e.path) == ConfigPath(w))
            && (r.Err? ==> forall e | e in effects :: !e.WriteText?)
            && (effects != [] ==> effects[0] == CreateDirAll(ConfigDir(w).value))
  {
  }
}
