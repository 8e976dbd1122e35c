# launchpad, modelled in Dafny

launchpad is a command-line tool that deploys iOS apps to TestFlight through
fastlane. This project models its core:

- the two configurations: the machine-wide App Store Connect credentials, which
  come from environment variables or `config.toml`, and the per-project
  `.launchpad.toml`;
- the Fastfile template and the example configuration;
- the `xcodebuild` scrapers: the scheme list and the bundle identifier;
- the fastlane runner: lane choice, the streaming loop that records the output
  and picks up the last reported version, the ten-line error context and the
  `"unknown"` fallback;
- the three commands `deploy`, `init` and `doctor`.

The file system, environment variables and home directory are a value
(`Env.World`). Everything a command does to the outside is returned as a sequence
of `Env.Effect`s, in order: a process started, a directory created, a file
written, a question asked. So "fastlane is never started unless every check
passed" and "`--yes` never asks anything" are statements about that sequence.
Processes, the TOML reader and writer, and the user's answers are function
parameters. The results of the commands are therefore functions of their inputs.

Modules: `Wrappers`, `Text` (the Rust string functions the code relies on:
`lines`, `trim`, `split_whitespace`, `contains`, `replace`, decimal formatting),
`Env`, `GlobalConfig`, `ProjectConfig`, `Templates`, `Xcode`, `Fastlane`, `Deploy`,
`Init` and `Doctor`.

## Model

| member | source | states |
|---|---|---|
| GlobalConfig.ConfigDir | src/config/global.rs:33-41 | `LAUNCHPAD_CONFIG_DIR` is used verbatim when set; otherwise `<home>/.launchpad`; there is no directory exactly when neither exists |
| GlobalConfig.ConfigPath | src/config/global.rs:43-45 | the path exists exactly when the directory does, and is `config.toml` inside it |
| GlobalConfig.EnvironmentOverrides | src/config/global.rs:47-61 | with all three `APPLE_API_*` variables set, `load` returns them, and the result does not depend on files, home directory or parser |
| GlobalConfig.FileFallback | src/config/global.rs:63-74 | with a variable missing, `load` is the file's answer: `NoConfigDir`, `None` for an absent file, a parse error, or the parsed file; a loaded configuration comes from a readable file |
| GlobalConfig.Save | src/config/global.rs:76-87 | no directory gives `NoConfigDir` with nothing done; the directory is created before rendering, so a serialisation failure gives `TomlSerialize` with the directory already created; otherwise the rendered text is then written to the config path |
| GlobalConfig.SaveWritesLoadPath | src/config/global.rs:76-87 | `save` writes only the file `load` falls back to, after creating its directory, and a failed `save` writes nothing |
| ProjectConfig.DefaultDeploy | src/config/project.rs:48-56 | tagging, pushing and cleaning are all on by default |
| ProjectConfig.DecodeDeploy | src/config/project.rs:32-46 | each `[deploy]` boolean is the file's value, and an omitted one is true |
| ProjectConfig.EmptyDeployIsDefault | src/config/project.rs:32-56 | an empty `[deploy]` table decodes to `DeploySettings::default()` |
| ProjectConfig.Decode | src/config/project.rs:19-30 | a document decodes exactly when it has both tables; `[project]` is kept as is |
| ProjectConfig.LoadAbsentIsNone | src/config/project.rs:59-70 | `load` is `Ok(None)` exactly when `.launchpad.toml` is absent; a loaded configuration comes from the readable file and keeps its deploy booleans |
| ProjectConfig.Save | src/config/project.rs:72-76 | a serialisation failure is `TomlSerialize`; otherwise the rendered text is written to `.launchpad.toml` |
| ProjectConfig.SaveWritesLoadPath | src/config/project.rs:59-76 | a successful `save` writes only the file `load` reads |
| Templates.GenerateShape | src/templates.rs:2-39 | the generated Fastfile is the template with the scheme in each of its three placeholder positions |
| Templates.GenerateLength | src/templates.rs:37-39 | each of the three placeholders is replaced, so the length changes by three times the length difference |
| Templates.GenerateIdentity | src/templates.rs:37-39 | generating with the placeholder itself gives back the template |
| Templates.NoPlaceholderLeft | src/templates.rs:37-39 | no `{{SCHEME}}` remains unless the scheme itself contains one |
| Templates.DefinesLanes | src/templates.rs:5-24 | every generated Fastfile defines the `beta`, `beta_patch` and `beta_minor` lanes |
| Templates.FastfileCandidates | src/commands/init.rs:234-239 | four places are searched, `<ios>/fastlane/Fastfile` first |
| Xcode.EntryWhere | src/xcode.rs:112-136 | an entry is found exactly when some entry of the listing satisfies the name test |
| Xcode.FindEntry | src/xcode.rs:112-136 | the loop returns the first matching entry of the listing, joined to the directory |
| Xcode.TargetArgs | src/xcode.rs:58-65 | a workspace wins (`-workspace`); otherwise a project (`-project`); otherwise nothing |
| Xcode.WorkspaceFirst | src/xcode.rs:112-123 | when a workspace is present it is the target, and a chosen workspace is never the inner `project.xcworkspace` |
| Xcode.ScanSection | src/xcode.rs:138-159 | the line-by-line state machine keeps exactly the non-header lines between the first header and the first line that ends the section |
| Xcode.ParseSchemes | src/xcode.rs:138-159 | `parse_schemes` returns the trimmed lines after `Schemes:` up to the first blank or `...:` line |
| Xcode.NoHeaderNoSchemes | src/xcode.rs:145-148 | output without a `Schemes:` line has no schemes |
| Xcode.SchemesAreSectionLines | src/xcode.rs:150-154 | every scheme is a non-empty trimmed line after the header, and is neither a header nor a line ending in `:` |
| Xcode.LaterLinesIgnored | src/xcode.rs:150-153 | once the section has ended, later output does not change the result |
| Xcode.SchemesBeforeBlank | src/xcode.rs:145-154 | any list of names (non-empty, not ending in `:`, not the header) under `Schemes:` and closed by a blank line is exactly the list of schemes, whatever follows |
| Xcode.ListSchemes | src/xcode.rs:21-50 | no workspace or project gives `NoProjectFound` with nothing run; otherwise one `xcodebuild -list` with the chosen target, a spawn error as `Io`, a failure as `CommandFailed(stderr)`, success as the parsed schemes |
| Xcode.BundleValueBetweenEquals | src/xcode.rs:77-83 | the identifier is the trimmed text between the first `=` and the next `=` or the end of the line |
| Xcode.ScanBundleId | src/xcode.rs:77-87 | the loop returns the value of the first line naming `PRODUCT_BUNDLE_IDENTIFIER` that holds an `=` |
| Xcode.KeyWithoutEqualsSkipped | src/xcode.rs:77-80 | a line that names the key but has no `=` is skipped, and the search goes on |
| Xcode.GetBundleId | src/xcode.rs:53-88 | one `xcodebuild -showBuildSettings -scheme` run; errors mapped as in `list_schemes`; no identifier line gives `CommandFailed("Could not find bundle identifier")` |
| Fastlane.New | src/fastlane.rs:28-38 | the runner carries the credentials, the `~`-expanded key path, the project directory and the scheme |
| Fastlane.LaneDefined | src/fastlane.rs:42-46 | `patch` and `minor` select their lanes and anything else selects `beta`; the generated Fastfile contains the `lane :<name> do` header of the selected lane |
| Fastlane.RunEnd | src/fastlane.rs:128-141 | a maximal run of matching characters: all match, and the next one does not |
| Fastlane.TripleEndSpec | src/fastlane.rs:130 | at a position, the matcher finds the longest `D+.D+.D+`, or reports that none starts there |
| Fastlane.BuildAtSpec | src/fastlane.rs:130-136 | the optional build is whitespace, `(`, digits and `)` right after the version |
| Fastlane.ExtractNoneIff | src/fastlane.rs:128-141 | `extract_version` finds nothing exactly when no substring is a dotted triple |
| Fastlane.ExtractLeftmost | src/fastlane.rs:128-141 | the result is the leftmost, longest triple, followed by ` (<build>)` when a build follows it |
| Fastlane.SkipNonDigits | src/fastlane.rs:128-141 | text without digits before a match does not change the result |
| Fastlane.ExtractVersionWithBuild | src/fastlane.rs:128-141 | text without digits, a dotted triple, optional whitespace and `(digits)` give `<version> (<build>)`, whatever follows |
| Fastlane.ExtractUploadExample | src/fastlane.rs:128-141 | `Successfully uploaded build 2.1.0 (45) to TestFlight` yields `2.1.0 (45)` |
| Fastlane.StdoutEndIndex | src/fastlane.rs:72-92 | the stream is handled up to the first end of stdout, and no earlier event ends stdout |
| Fastlane.ScanLine | src/fastlane.rs:76-87 | a stdout line that mentions a version or an upload and has a match replaces the last version; any other line leaves it |
| Fastlane.Stream | src/fastlane.rs:66-103 | the loop records every handled line in arrival order and keeps the version of the last qualifying stdout line that has one |
| Fastlane.TranscriptAppend | src/fastlane.rs:75-95 | the recorded output of two stretches of events is the concatenation of theirs |
| Fastlane.HandledStopsAtStdoutEnd | src/fastlane.rs:70-90 | the end of stdout stops the loop, and nothing after it is looked at |
| Fastlane.StderrEndContinues | src/fastlane.rs:98-100 | the end of stderr changes neither the recorded output nor the version |
| Fastlane.LastVersionSkips | src/fastlane.rs:77-87 | lines that report no version do not change the last version |
| Fastlane.LastVersionIsLastReport | src/fastlane.rs:77-87 | the last version is the one extracted from the last reporting line |
| Fastlane.NoReportNoVersion | src/fastlane.rs:119-124 | without a reporting line there is no version |
| Fastlane.ContextTailIsRevTakeRev | src/fastlane.rs:107-116 | the error context is the last ten lines in their original order (`rev().take(10).rev()`) |
| Fastlane.OutcomeSpec | src/fastlane.rs:105-124 | success gives a non-empty version: the last reported, or `unknown` when none was reported; failure gives `CommandFailed` with the last ten lines joined by newlines |
| Fastlane.Deploy | src/fastlane.rs:40-125 | exactly one `fastlane <lane>` run, in the project directory, with the four API-key and timeout variables, and its outcome as result |
| Deploy.BumpSelection | src/commands/deploy.rs:67-79 | `--patch` wins over `--minor`; the bump, the announcement and the lane agree |
| Deploy.TagCommandNames | src/commands/deploy.rs:135-147 | the tag is `v<version>` with the message `Release v<version>` |
| Deploy.IsGitClean | src/commands/deploy.rs:127-133 | the tree is clean exactly when `git status --porcelain` prints nothing; a spawn error is passed on |
| Deploy.GitOutcome | src/commands/deploy.rs:135-161 | a git step succeeds exactly when the command ran and exited successfully |
| Deploy.TagPolicy | src/commands/deploy.rs:90-121 | a tag is attempted exactly when tagging is on; the push follows only a tag that was made, and only when pushing is on; nothing else runs |
| Deploy.Preflight | src/commands/deploy.rs:42-64 | the configurations, the API key and the git state are checked in order and the first failure is returned; only the git check starts a process, and the configurations are handed on exactly when every check passed |
| Deploy.Release | src/commands/deploy.rs:66-123 | fastlane runs first with the selected lane; a lane failure is `FastlaneFailed` with nothing after it; a success is followed only by the tagging steps the policy allows |
| Deploy.Run | src/commands/deploy.rs:34-125 | the checks run in order and the first failure is returned with nothing run; the git check is skipped entirely, or comes first and stops on a dirty tree; fastlane runs exactly when every check passed; a lane failure is `FastlaneFailed` and is never followed by tagging |
| Init.CheckAndInstallFastlane | src/commands/init.rs:188-231 | the result is the installation outcome `run` passes on, with or without `--yes`: nothing happens when fastlane is present; Homebrew runs exactly when it is missing and installation was agreed (always with `--yes`); its failure is `FastlaneInstallFailed`; refusing is `UserCancelled` |
| Init.IosPathOf | src/commands/init.rs:280-299 | the detected directory is a candidate holding a workspace or project; nothing is detected exactly when no candidate holds one |
| Init.DetectIosPath | src/commands/init.rs:280-299 | the nested loop returns the first candidate, in the order `ios`, `.`, `App`, `app`, that holds a workspace or project |
| Init.ChosenIosPath | src/commands/init.rs:51-55 | `--ios-path` wins over detection; neither gives the empty path |
| Init.SelectScheme | src/commands/init.rs:63-82 | `--scheme` wins; no scheme is `NoSchemeDetected`; one is taken; several are asked about, or the first is taken with `--yes`; a detected choice is always one of the schemes |
| Init.DetectedBundleId | src/commands/init.rs:85-90 | the scraped identifier, else `com.example.app` |
| Init.ChooseBundleId | src/commands/init.rs:85-99 | `--bundle-id` wins; `--yes` takes the detected one; otherwise the user's answer, with the detected one as default |
| Init.TagPolicy | src/commands/init.rs:102-123 | `--yes` tags and pushes; otherwise pushing is asked only after tagging was accepted, so pushing implies tagging |
| Init.NewConfig | src/commands/init.rs:126-137 | the saved configuration holds the chosen project, scheme, identifier and tag policy, with cleaning on |
| Init.FastfilePath | src/commands/init.rs:267-272 | a created Fastfile goes where later searches look first |
| Init.CheckAndCreateFastfile | src/commands/init.rs:233-278 | an existing Fastfile in any of the four places is kept with nothing done; otherwise the user is asked (not with `--yes`), and `<ios>/fastlane/Fastfile` is created with the given text exactly when there is none and `--yes` was given or the user agreed; refusing still succeeds, a failed question is `Io`, and only the Fastfile is written |
| Init.CreatedFastfileIsFound | src/commands/init.rs:266-273 | after the write, the search finds a Fastfile |
| Init.CreatedFastfileHasLanes | src/commands/init.rs:270-273 | every Fastfile `init` writes for a scheme defines the three lanes deploy runs |
| Init.GitignoreUpdate | src/commands/init.rs:167-174 | the entry is added exactly when the text does not already contain it, appended on its own line |
| Init.GitignoreIdempotent | src/commands/init.rs:169-171 | after an update, a second update changes nothing |
| Init.ReadText | src/commands/init.rs:168 | a read succeeds exactly for a readable file and returns its text |
| Init.OfferGitignore | src/commands/init.rs:155-175 | without `.gitignore`, or with `--yes`, nothing happens and the step succeeds; otherwise the user is asked first; a refusal, or an entry already present, succeeds with nothing written; after consent the updated text is the only write; a failed question or an unreadable `.gitignore` is `Io` |
| Init.FastfileIsNoOtherFile | src/commands/init.rs:266-273 | the Fastfile is none of the other files `init` writes |
| Init.SettingsOutcomeSpec | src/commands/init.rs:84-137 | a configuration out of the bundle-identifier and tag steps keeps the directory and scheme, honours `--bundle-id`, cleans, pushes only when it tags, and tags and pushes with `--yes` |
| Init.ChooseSettings | src/commands/init.rs:84-123 | the build settings are queried even when `--bundle-id` is given; the identifier's error, else the tag policy's, is the result; nothing is written and `--yes` asks nothing |
| Init.ConfigOutcomeSpec | src/commands/init.rs:51-137 | no directory is `NoIosProject`; a failure to list the schemes is the result even with `--scheme`; a configuration honours every flag given, and a scheme not given is one of those listed |
| Init.ChooseConfig | src/commands/init.rs:51-137 | the result is that of the steps in order, each step's error deciding it; choosing writes nothing, asks nothing with `--yes`, fails with `NoIosProject` before anything runs when no directory is found, and honours every flag given |
| Init.FastfileEffectsSpec | src/commands/init.rs:233-273 | the Fastfile step asks nothing with `--yes`, writes nothing but the generated Fastfile, and writes it exactly when it creates it |
| Init.FinishEffectsSpec | src/commands/init.rs:152-175 | the Fastfile and `.gitignore` steps ask nothing with `--yes`, write only those two files, the Fastfile only with the generated text, and the Fastfile exactly when it is created |
| Init.FastfileAndGitignore | src/commands/init.rs:152-175 | the Fastfile generated for the scheme is written as the Fastfile step decides, then the `.gitignore` step runs unless the first failed; the result is the first failure, else success |
| Init.WrittenEffectsSpec | src/commands/init.rs:139-175 | once saved, the configuration is the first write; nothing asks with `--yes`; only the four known files are written, the example only when absent, the Fastfile only with the generated text and exactly when it is created |
| Init.WriteFiles | src/commands/init.rs:139-175 | a serialisation failure is `Io` with nothing written; otherwise `.launchpad.toml` is written first, the example only when absent, the Fastfile exactly when the Fastfile step creates it, nothing but the four known files, and the result is that of the Fastfile and `.gitignore` steps |
| Init.ChooseAndWrite | src/commands/init.rs:51-175 | the result is each step's error in order, else that of the last two steps; the configuration saved is the one chosen, when it renders, and it is the first file written |
| Init.RunOutcomeSpec | src/commands/init.rs:34-186 | `run` stops at the first failing step and returns its error: an existing configuration, the fastlane installation, the scheme listing (even with `--scheme`), the other choices, serialisation; once saved, the result is that of the Fastfile and `.gitignore` steps; success exactly when every step succeeded |
| Init.Run | src/commands/init.rs:34-186 | the result is that of the steps in order; an existing configuration is never overwritten; `--yes` never asks; nothing is written before a configuration is chosen, and then it is the first write; the Fastfile is written exactly when the Fastfile step creates it; the example only when none exists |
| Doctor.CheckXcode | src/commands/doctor.rs:70-89 | passes exactly when `xcodebuild -version` succeeds, reporting its first line, or `Unknown` for empty output |
| Doctor.FindLine | src/commands/doctor.rs:99-101 | a found line contains the text, and nothing is found exactly when no line does |
| Doctor.FindLineIsFirst | src/commands/doctor.rs:99-101 | the found line is the first one containing the text |
| Doctor.ScrapeVersionSpec | src/commands/doctor.rs:94-107 | the version is the last word of the first line mentioning `fastlane`, and `installed` when no line does |
| Doctor.CheckFastlane | src/commands/doctor.rs:91-120 | passes exactly when fastlane is on the path; the message is the scraped version, or `installed` when it cannot run |
| Doctor.CheckGlobalConfig | src/commands/doctor.rs:122-151 | passes exactly when credentials load and the key file exists; each failure has its own message |
| Doctor.CheckProjectConfig | src/commands/doctor.rs:153-185 | reported exactly when `.launchpad.toml` exists; passes exactly when it loads and its iOS directory exists, reporting the directory and scheme; a missing directory is `iOS path not found: <ios>` and a load failure `Config error: <error>` |
| Doctor.FoundFastfile | src/commands/doctor.rs:187-213 | a found Fastfile is an existing candidate; none is found exactly when no candidate exists |
| Doctor.CheckFastfile | src/commands/doctor.rs:187-213 | reported exactly when the project configuration loads; passes exactly when a Fastfile is found, reporting where |
| Doctor.FailuresZeroIff | src/commands/doctor.rs:45-53 | no failures exactly when every check passed |
| Doctor.FailuresAppend | src/commands/doctor.rs:45-53 | failures of a list are the sum of those of its parts |
| Doctor.CountFailures | src/commands/doctor.rs:45-53 | the counting loop returns the number of failed checks |
| Doctor.SummaryForms | src/commands/doctor.rs:57-64 | `1 issue found`, else `<n> issues found` |
| Doctor.SummarySpec | src/commands/doctor.rs:57-64 | the summary starts with the decimal count, which reads back as the count, and says `issues` exactly when the count is not one |
| Doctor.Collect | src/commands/doctor.rs:23-42 | the report lists Xcode, fastlane and the credentials first, then the project check and the Fastfile check, each only when it applies |
| Doctor.Verdict | src/commands/doctor.rs:44-67 | success exactly when every check passed; otherwise `ChecksFailed` and a summary with a positive count of failures |
| Doctor.Run | src/commands/doctor.rs:19-68 | Xcode, fastlane and the credentials are always checked, then the project and Fastfile when present, the Fastfile check last, passing exactly when a Fastfile is found and naming it; success exactly when every check passed; otherwise `ChecksFailed` with a positive count in the summary |

## Left out

- Concurrency: `tokio::select!` over the two output streams is modelled as one sequence of events in arrival order. The interleaving is an input.
- Processes: spawning, exit codes, output and the child's environment are function parameters (`run`, `git`, `fastlane`). The commands' printed progress and colours (`ui.rs`) are not modelled.
- TOML: reading and writing are parameters (`parse`, `render`). No round trip between them is claimed.
- Prompts: `dialoguer` answers are the `Init.Answers` input; only the order of the questions is modelled.
- `which`, `shellexpand` (`World.expandTilde`), and the order of `read_dir`: these are inputs.
- Writes and directory creation are assumed to succeed. Their `io::Error` paths are not modelled. Reads can fail (`File.Unreadable`).
- The world is read as it was when the command started. A file the command writes is not seen by its own later reads. The one case where that matters, a Fastfile created by `init`, is covered by `Init.CreatedFastfileIsFound`.
- `String::from_utf8_lossy`: output is taken as already-decoded text.
- `Xcode::is_installed` and `Xcode::version` (src/xcode.rs:91-109) are not used by the modelled commands and are not modelled.
- `setup.rs`, `main.rs` (argument parsing) and `ui.rs` are not part of this model.
- Doctor.Run: the `fastlane --version` output is a pure input here, so whether it is evaluated when fastlane is missing is not observable.
- Init.Run: states when the Fastfile is written but not its text; `Init.FastfileAndGitignore` and `Init.CreatedFastfileHasLanes` state the text. The `.gitignore` write is stated through `WritesOnly` and `Init.OfferGitignore`.
- Init.Run: the example text is the parameter `exampleText`, which the command fills with `Templates.LaunchpadTomlExample` (src/commands/init.rs:148).
- Deploy.IsGitClean: follows the source in ignoring the exit status of `git status --porcelain` (src/commands/deploy.rs:127-133). Outside a repository git prints nothing on stdout, so the tree counts as clean.
- Templates: the Fastfile template and example configuration text are kept as constants. The generated Fastfile is passed into `Init.CheckAndCreateFastfile` as a parameter, and `Init.FastfileAndGitignore` supplies `Templates.GenerateFastfile(scheme)` for it.
