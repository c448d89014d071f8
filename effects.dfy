/** The outside world of the installer: everything it does to the filesystem,
    the network and child processes is recorded as an `Action` in the host's
    trace instead of being performed. What the world answers back (whether a
    command succeeded, what a process printed) comes from oracles fixed when
    the host is created. */
module Effects {
  import opened Names

  datatype Option<T> = None | Some(value: T)

  /** A value, or the message of the error that was thrown instead. */
  datatype Result<T> = Ok(value: T) | Err(error: string)

  /** Normal completion, or the message of the error that was thrown. */
  datatype Outcome = Pass | Fail(error: string)

  /** The operating system as `os.platform()` names it. Only "win32" is told
      apart; linux, darwin and every other platform take the same branches. */
  datatype Platform = Win32 | Other

  /** A filesystem path: a base directory (`root.home`, a fixed absolute
      directory), or one name inside a directory. */
  datatype Path = Base(root: Name) | Sub(dir: Path, name: Name)

  /** One word of a command line: a name, or a path written out. */
  datatype Word = Lit(name: Name) | At(path: Path)

  /** A command line, as its blank-separated words. */
  type Command = seq<Word>

  /** One effect on the outside world, in the order the installer causes it. */
  datatype Action =
    | MakeDir(path: Path)              // create a directory and its parents
    | Copy(src: Path, dst: Path)       // copy one local file
    | Fetch(url: Name, dst: Path)      // download one file over the network
    | Exec(cmd: Command, cwd: Path)    // run one command to completion

  /** `path.join(dir, name)` and `path.resolve(dir, name)` for a plain name. */
  function Join(dir: Path, name: Name): Path
  {
    Sub(dir, name)
  }

  /** A path written out with "/" as the separator. */
  function PathText(p: Path): string
  {
    match p
    case Base(root) => Spell(root)
    case Sub(dir, name) => PathText(dir) + "/" + Spell(name)
  }

  function WordText(w: Word): string
  {
    match w
    case Lit(name) => Spell(name)
    case At(path) => PathText(path)
  }

  /** The text of a command line: its words separated by single blanks. */
  function CommandText(cmd: Command): string
  {
    if cmd == [] then ""
    else if |cmd| == 1 then WordText(cmd[0])
    else CommandText(cmd[..|cmd| - 1]) + " " + WordText(cmd[|cmd| - 1])
  }

  /** Appending a word to a command line appends a blank and the word. */
  lemma CommandTextAppend(cmd: Command, w: Word)
    requires cmd != []
    ensures CommandText(cmd + [w]) == CommandText(cmd) + " " + WordText(w)
  {
    assert (cmd + [w])[..|cmd|] == cmd;
  }

  /** A three-word command line is its words separated by blanks. */
  lemma CommandText3(a: Word, b: Word, c: Word)
    ensures CommandText([a, b, c]) == WordText(a) + " " + WordText(b) + " " + WordText(c)
  {
    CommandTextAppend([a], b);
    assert [a] + [b] == [a, b];
    CommandTextAppend([a, b], c);
    assert [a, b] + [c] == [a, b, c];
  }

  /** A four-word command line is its words separated by blanks. */
  lemma CommandText4(a: Word, b: Word, c: Word, d: Word)
    ensures CommandText([a, b, c, d]) == WordText(a) + " " + WordText(b) + " " + WordText(c) + " " + WordText(d)
  {
    var cmd := [a, b, c, d];
    assert cmd[..3][..2] == [a, b] && cmd[..3][2] == c;
    assert [a, b][..1] == [a] && [a, b][1] == b;
    assert CommandText([a, b]) == WordText(a) + " " + WordText(b);
    assert CommandText(cmd[..3]) == WordText(a) + " " + WordText(b) + " " + WordText(c);
  }

  /** Effects appended in two steps are the same as appended in one. */
  lemma AppendAssoc(a: seq<Action>, b: seq<Action>, c: seq<Action>)
    ensures a + b + c == a + (b + c)
  {
  }

  /** The object the installer calls `root`, together with the filesystem
      calls it makes directly: every effect is appended to `trace`. */
  class Host {
    /** The installation root, `root.home`. */
    const home: string
    /** Whether `exec(cmd, cwd)` reports success. */
    const execReport: (Command, Path) -> bool
    /** The chunks of output `exec(cmd, cwd)` hands to its callback, in order. */
    const output: (Command, Path) -> seq<string>
    /** Every effect so far, oldest first. */
    var trace: seq<Action>

    constructor (home: string, execReport: (Command, Path) -> bool, output: (Command, Path) -> seq<string>)
      ensures this.home == home && this.execReport == execReport && this.output == output
      ensures trace == []
    {
      this.home := home;
      this.execReport := execReport;
      this.output := output;
      trace := [];
    }

    /** `root.exec(cmd, cwd)`: runs the command and reports whether it succeeded. */
    method Exec(cmd: Command, cwd: Path) returns (ok: bool)
      modifies this
      ensures trace == old(trace) + [Action.Exec(cmd, cwd)]
      ensures ok == execReport(cmd, cwd)
    {
      trace := trace + [Action.Exec(cmd, cwd)];
      ok := execReport(cmd, cwd);
    }

    /** `root.down(url, dst, headers)`: downloads one file. */
    method Down(url: Name, dst: Path)
      modifies this
      ensures trace == old(trace) + [Fetch(url, dst)]
    {
      trace := trace + [Fetch(url, dst)];
    }

    /** `fs.copyFileSync(src, dst)`. */
    method CopyFile(src: Path, dst: Path)
      modifies this
      ensures trace == old(trace) + [Copy(src, dst)]
    {
      trace := trace + [Copy(src, dst)];
    }

    /** `fs.promises.mkdir(path, { recursive: true })`, any error ignored. */
    method MakeDirectory(path: Path)
      modifies this
      ensures trace == old(trace) + [MakeDir(path)]
    {
      trace := trace + [MakeDir(path)];
    }
  }
}
