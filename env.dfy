/** What the commands observe of the machine (environment variables, the home
    directory, files and directory listings) and what they do to it (processes
    they run, directories they create, files they write). */
module Env {
  import opened Wrappers
  import opened Text

  /** A regular file: its text, or the reason reading it fails. */
  datatype File = Readable(text: string) | Unreadable(reason: string)

  /** The machine as one command invocation sees it. Paths are compared as
      strings, relative to the working directory. */
  datatype World = World(
    vars: map<string, string>,        // environment variables that are set
    home: Option<string>,             // the home directory, if one is known
    files: map<string, File>,         // the regular files that exist
    dirs: map<string, seq<string>>,   // the directories that exist, with their entry names in listing order
    expandTilde: string -> string     // `~` expansion of a path
  )

  /** `Path::exists`. */
  predicate Exists(w: World, path: string) {
    path in w.files || path in w.dirs
  }

  /** What reading a directory as a file reports. */
  const DirectoryReadError := "Is a directory (os error 21)"

  /** The names a directory listing yields; a listing that fails yields none. */
  function ReadDir(w: World, path: string): seq<string> {
    if path in w.dirs then w.dirs[path] else []
  }

  /** `std::env::var`, `None` when the variable is not set. */
  function Var(w: World, name: string): Option<string> {
    if name in w.vars then Some(w.vars[name]) else None
  }

  /** `Path::join` of a relative or absolute name onto a directory. */
  function PathJoin(dir: string, name: string): (p: string)
    ensures StartsWith(name, "/") ==> p == name
    ensures !StartsWith(name, "/") ==> EndsWith(p, name)
  {
    if StartsWith(name, "/") then name
    else if dir == [] || EndsWith(dir, "/") then dir + name
    else dir + "/" + name
  }

  /** The captured result of a finished child process. */
  datatype Output = Output(success: bool, stdout: string, stderr: string)

  /** A process to run: program, arguments, working directory and extra environment. */
  datatype Command = Command(program: string, args: seq<string>, cwd: Option<string>, env: seq<(string, string)>)

  /** Something a command does to the outside world: run a process, create a
      directory with its parents, write a file, or put a question to the user. */
  datatype Effect =
    | Spawn(cmd: Command)
    | CreateDirAll(path: string)
    | WriteText(path: string, text: string)
    | Ask(prompt: string)

  /** No effect is a question to the user. */
  predicate Quiet(effects: seq<Effect>) {
    forall e | e in effects :: !e.Ask?
  }

  /** No effect writes a file. */
  predicate NoWrites(effects: seq<Effect>) {
    forall e | e in effects :: !e.WriteText?
  }

  /** Both properties carry over to a concatenation. */
  lemma AppendKeeps(a: seq<Effect>, b: seq<Effect>)
    ensures Quiet(a) && Quiet(b) ==> Quiet(a + b)
    ensures NoWrites(a) && NoWrites(b) ==> NoWrites(a + b)
  {
    assert forall e | e in a + b :: e in a || e in b;
  }

  /** A process run in the working directory with the inherited environment. */
  function Plain(program: string, args: seq<string>): Command {
    Command(program, args, None, [])
  }

  /** Whether any effect runs `program`. */
  predicate Spawns(effects: seq<Effect>, program: string) {
    exists k | 0 <= k < |effects| :: effects[k].Spawn? && effects[k].cmd.program == program
  }

  /** Index of the first path of `candidates` that exists, or `|candidates|`. */
  method FirstExisting(w: World, candidates: seq<string>) returns (i: nat)
    ensures i <= |candidates|
    ensures i < |candidates| ==> Exists(w, candidates[i])
    ensures forall j | 0 <= j < i :: !Exists(w, candidates[j])
  {
    i := 0;
    while i < |candidates|
      invariant i <= |candidates|
      invariant forall j | 0 <= j < i :: !Exists(w, candidates[j])
    {
      if Exists(w, candidates[i]) {
        return;
      }
      i := i + 1;
    }
  }
}
