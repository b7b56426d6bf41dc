/**
 * Everything the core reads from outside the process, passed in as one value: the
 * environment, the working directory, the home directory, what `os.Stat`,
 * `ioutil.ReadDir` and `ioutil.ReadFile` would report, the raw output of the tmux and
 * git commands it runs, and the foreign routines it calls (MD5 in hex, the dotenv
 * parser, TOML-to-JSON conversion and the JSON text parser), and whether standard output
 * is a colour terminal.
 */
module World {
  import opened Wrappers
  import Strs
  import Json

  /** What `os.Stat` or `ioutil.ReadDir` says about one file; `modTime` is its RFC 3339 form. */
  datatype FileInfo = FileInfo(name: string, isDir: bool, mode: bv32, modTime: string)

  /** Outputs of `tmux display-message -p '#S'`, `… '#W'` and `tmux list-windows -F '#I|#W'`. */
  datatype Tmux = Tmux(session: Option<string>, currentWindow: Option<string>, windows: Option<string>)

  /** Outputs of the three `git ls-files` invocations: untracked, with submodules, plain. */
  datatype Git = Git(others: Option<string>, recurse: Option<string>, plain: Option<string>)

  datatype World = World(
    env: map<string, string>,
    cwd: Option<string>,
    home: string,
    stat: map<string, FileInfo>,
    listing: map<string, seq<FileInfo>>,
    files: map<string, string>,
    tmux: Tmux,
    git: Git,
    digest: string -> string,
    dotenv: string -> seq<(string, string)>,
    toml: string -> Option<Json.Json>,
    parseJson: string -> Option<Json.Json>,
    colorTerminal: bool)

  /** util.PathExists: `os.Stat` succeeds. */
  predicate PathExists(w: World, p: string) {
    p in w.stat
  }

  function ReadFile(w: World, p: string): (r: Result<string>)
    ensures r.Ok? <==> p in w.files
  {
    if p in w.files then Ok(w.files[p]) else Err("open " + p + ": no such file or directory")
  }

  function Getwd(w: World): Result<string> {
    match w.cwd
    case Some(d) => Ok(d)
    case None => Err("getwd: no such file or directory")
  }

  /** os.Getenv: an unset variable reads as "". */
  function Getenv(w: World, k: string): string {
    if k in w.env then w.env[k] else ""
  }

  /** An executable file has one of the bits of 0111 set. */
  predicate Executable(f: FileInfo) {
    f.mode & 0x49 != 0
  }

  function DropCR(line: string): (r: string)
    ensures r == line || r + "\r" == line
  {
    if |line| > 0 && line[|line| - 1] == '\r' then line[..|line| - 1] else line
  }

  function DropCRs(lines: seq<string>): (r: seq<string>)
    ensures |r| == |lines|
    ensures forall i :: 0 <= i < |r| ==> r[i] == DropCR(lines[i])
  {
    if |lines| == 0 then [] else [DropCR(lines[0])] + DropCRs(lines[1..])
  }

  /**
   * The lines a `bufio.Scanner` yields: split at '\n', no empty line after a final '\n',
   * one trailing '\r' removed from each.
   */
  function ScanLines(content: string): (r: seq<string>)
    ensures content == "" ==> r == []
  {
    if content == "" then []
    else
      var parts := Strs.Split(content, '\n');
      var kept := if parts[|parts| - 1] == "" then parts[..|parts| - 1] else parts;
      DropCRs(kept)
  }

  /** The text of a command's output with surrounding white space removed (`cmdOutput`). */
  function Output(o: Option<string>): Result<string> {
    match o
    case Some(s) => Ok(Strs.TrimSpace(s))
    case None => Err("exit status 1")
  }
}
