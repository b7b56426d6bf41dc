/**
 * module_python.go: the older `python` unit.  It sources the virtualenv's own
 * `bin/activate`, creates the virtualenv first when that script is missing, and runs
 * one pip install of every dependency when the dependency hash differs from the one
 * recorded after the last install.
 */
module LegacyPython {
  import opened Wrappers
  import Json
  import Util
  import World
  import Strs
  import Paths
  import LegacyPaths
  import Manager

  const DefaultPython: string := "python"
  const DefaultVirtualenv: string := "virtualenv"
  const DefaultPipInstallCommand: string := "pip install"

  /** `PyModuleConfig`. */
  datatype Config = Config(
    python: string,
    autoInstallDeps: bool,
    dependencies: seq<string>,
    pipInstallCommand: string,
    prepPipInstallCommand: string,
    virtualEnvCommand: string)

  datatype Unit = Unit(config: Config, ctx: LegacyPaths.Ctx)

  function Decode(raw: Json.Raw): Result<Config> {
    var ms :- Util.UnmarshalEmpty(raw, "main.PyModuleConfig");
    var python :- Json.GetString(ms, "Python");
    var auto :- Json.GetBool(ms, "auto_install_deps");
    var deps :- Json.GetStrings(ms, "Dependencies");
    var pip :- Json.GetString(ms, "pip_install_command");
    var prep :- Json.GetString(ms, "prep_pip_install_command");
    var venv :- Json.GetString(ms, "virtualenv_command");
    Ok(Config(python, auto, deps, pip, prep, venv))
  }

  function OrDefault(s: string, d: string): string {
    if s == "" then d else s
  }

  /**
   * `NewPythonModule`: decode the payload, then give the interpreter, both pip commands
   * and the virtualenv command their defaults when empty.
   */
  function New(ctx: LegacyPaths.Ctx, raw: Json.Raw): (r: Result<Unit>)
    ensures r.Ok? <==> Decode(raw).Ok?
    ensures r.Ok? ==> r.value.ctx == ctx
    ensures r.Ok? ==> r.value.config.python != "" && r.value.config.pipInstallCommand != ""
                      && r.value.config.prepPipInstallCommand != "" && r.value.config.virtualEnvCommand != ""
    ensures r.Ok? ==> r.value.config.dependencies == Decode(raw).value.dependencies
                      && r.value.config.autoInstallDeps == Decode(raw).value.autoInstallDeps
    ensures r.Ok? && Decode(raw).value.python != "" ==> r.value.config.python == Decode(raw).value.python
    ensures raw.Absent? ==>
              r == Ok(Unit(Config(DefaultPython, false, [], DefaultPipInstallCommand, DefaultPipInstallCommand, DefaultVirtualenv), ctx))
  {
    var c :- Decode(raw);
    Ok(Unit(Config(OrDefault(c.python, DefaultPython), c.autoInstallDeps, c.dependencies,
                   OrDefault(c.pipInstallCommand, DefaultPipInstallCommand),
                   OrDefault(c.prepPipInstallCommand, DefaultPipInstallCommand),
                   OrDefault(c.virtualEnvCommand, DefaultVirtualenv)), ctx))
  }

  function VenvDir(u: Unit): string {
    LegacyPaths.StoragePath(u.ctx, ["pyvenv"])
  }

  function ActivatePath(u: Unit): string {
    Paths.Join([VenvDir(u), "bin", "activate"])
  }

  function HashPath(u: Unit): string {
    Paths.Join([VenvDir(u), "autoinstall_dep_sha.txt"])
  }

  /** The hash recorded by the last install; a file that cannot be read gives "". */
  function LastHash(u: Unit, w: World.World): string {
    match World.ReadFile(w, HashPath(u))
    case Ok(data) => Strs.TrimSpace(data)
    case Err(_) => ""
  }

  /** `venvExists`: the virtualenv's `bin/activate` is there. */
  predicate VenvExists(u: Unit, w: World.World) {
    World.PathExists(w, ActivatePath(u))
  }

  // ---------------------------------------------------------------- the dependency hash

  /** The file the hash reads for a requirements entry: an absolute path as it is, a relative one below the root. */
  function HashedPath(ctx: LegacyPaths.Ctx, dep: string): string {
    if Paths.IsAbs(dep) then dep else LegacyPaths.RootPath(ctx, [dep])
  }

  /** What one dependency feeds the hash: a ".txt" entry its file's contents, any other entry its own text. */
  function Piece(ctx: LegacyPaths.Ctx, w: World.World, dep: string): Result<string> {
    if Strs.HasSuffix(dep, ".txt") then World.ReadFile(w, HashedPath(ctx, dep)) else Ok(dep)
  }

  function Pieces(ctx: LegacyPaths.Ctx, w: World.World, deps: seq<string>): seq<Result<string>> {
    seq(|deps|, i requires 0 <= i < |deps| => Piece(ctx, w, deps[i]))
  }

  /** Strings one after the other. */
  function Glue(parts: seq<string>): string {
    if |parts| == 0 then "" else Glue(parts[..|parts| - 1]) + parts[|parts| - 1]
  }

  lemma GlueAppend(parts: seq<string>, s: string)
    ensures Glue(parts + [s]) == Glue(parts) + s
  {
    assert (parts + [s])[..|parts|] == parts;
  }

  /** Everything written to the MD5 state, in order, or the first read error. */
  function HashInput(ctx: LegacyPaths.Ctx, w: World.World, deps: seq<string>): Result<string> {
    var parts :- Manager.All(Pieces(ctx, w, deps));
    Ok(Glue(parts))
  }

  /**
   * `autoInstallCalculateDepHash`: "" without dependencies, otherwise the digest of the
   * hash input, which fails exactly when a requirements file cannot be read.
   */
  function DepHash(u: Unit, w: World.World): (r: Result<string>)
    ensures |u.config.dependencies| == 0 ==> r == Ok("")
    ensures |u.config.dependencies| > 0 ==>
              (r.Err? <==> exists i :: 0 <= i < |u.config.dependencies| && Strs.HasSuffix(u.config.dependencies[i], ".txt")
                                     && HashedPath(u.ctx, u.config.dependencies[i]) !in w.files)
  {
    if |u.config.dependencies| == 0 then Ok("")
    else
      HashInputReadsEach(u.ctx, w, u.config.dependencies);
      var data :- HashInput(u.ctx, w, u.config.dependencies);
      Ok(w.digest(data))
  }

  /**
   * The hash input fails exactly when some requirements file cannot be read; otherwise it
   * is, dependency by dependency, the file's contents or the entry's text.
   */
  lemma HashInputReadsEach(ctx: LegacyPaths.Ctx, w: World.World, deps: seq<string>)
    ensures HashInput(ctx, w, deps).Err? <==>
              exists i :: 0 <= i < |deps| && Strs.HasSuffix(deps[i], ".txt") && HashedPath(ctx, deps[i]) !in w.files
    ensures HashInput(ctx, w, deps).Ok? ==>
              HashInput(ctx, w, deps) == Ok(Glue(seq(|deps|, i requires 0 <= i < |deps| =>
                if Strs.HasSuffix(deps[i], ".txt") then w.files[HashedPath(ctx, deps[i])] else deps[i])))
  {
    var ps := Pieces(ctx, w, deps);
    Manager.AllOrNothing(ps);
    assert forall i :: 0 <= i < |deps| ==> ps[i] == Piece(ctx, w, deps[i]);
    if Manager.All(ps).Ok? {
      var expected := seq(|deps|, i requires 0 <= i < |deps| =>
                        if Strs.HasSuffix(deps[i], ".txt") then w.files[HashedPath(ctx, deps[i])] else deps[i]);
      assert Manager.All(ps).value == expected;
    }
  }

  lemma {:induction false} HashInputErrorSticks(ctx: LegacyPaths.Ctx, w: World.World, deps: seq<string>, k: nat)
    requires k <= |deps| && Manager.All(Pieces(ctx, w, deps[..k])).Err?
    ensures Manager.All(Pieces(ctx, w, deps)) == Manager.All(Pieces(ctx, w, deps[..k]))
  {
    assert Pieces(ctx, w, deps)[..k] == Pieces(ctx, w, deps[..k]);
    Manager.AllErrorSticks(Pieces(ctx, w, deps), k);
  }

  /** The hash loop: write each dependency's piece into the MD5 state, stopping at the first unreadable file. */
  method CalculateDepHash(u: Unit, w: World.World) returns (r: Result<string>)
    ensures r == DepHash(u, w)
  {
    var deps := u.config.dependencies;
    if |deps| == 0 {
      return Ok("");
    }
    ghost var ps := Pieces(u.ctx, w, deps);
    ghost var parts: seq<string> := [];
    var written := "";
    for i := 0 to |deps|
      invariant Manager.All(ps[..i]) == Ok(parts)
      invariant written == Glue(parts)
    {
      var dep := deps[i];
      Manager.AllStep(ps, parts, i);
      if Strs.HasSuffix(dep, ".txt") {
        var fullPath := dep;
        if !Paths.IsAbs(dep) {
          fullPath := LegacyPaths.RootPath(u.ctx, [dep]);
        }
        var data := World.ReadFile(w, fullPath);
        if data.Err? {
          return Err(data.msg);
        }
        GlueAppend(parts, data.value);
        written := written + data.value;
        parts := parts + [data.value];
      } else {
        GlueAppend(parts, dep);
        written := written + dep;
        parts := parts + [dep];
      }
    }
    assert ps[..|deps|] == ps;
    r := Ok(w.digest(written));
  }

  // ---------------------------------------------------------------- install arguments

  /** `autoInstallArgs` as written for one entry: a ".txt" entry is `-r` with `RootPath` of it, whatever it is. */
  function ArgAsWritten(ctx: LegacyPaths.Ctx, dep: string): (r: string)
    ensures !Paths.IsAbs(dep) ==> r == Arg(ctx, dep)
  {
    if Strs.HasSuffix(dep, ".txt") then "-r " + LegacyPaths.RootPath(ctx, [dep]) else dep
  }

  /** One entry's install argument, corrected: `-r` names the file the hash reads. */
  function Arg(ctx: LegacyPaths.Ctx, dep: string): string {
    if Strs.HasSuffix(dep, ".txt") then "-r " + HashedPath(ctx, dep) else dep
  }

  function Args(u: Unit): (r: seq<string>)
    ensures |r| == |u.config.dependencies|
  {
    seq(|u.config.dependencies|, i requires 0 <= i < |u.config.dependencies| => ArgAsWritten(u.ctx, u.config.dependencies[i]))
  }

  /** The arguments of the install line, space-separated. */
  function InstallArgs(u: Unit): string {
    Strs.Join(Args(u), " ")
  }

  /**
   * With the corrected argument, every requirements entry is installed from the very file
   * its contents were hashed from, and every other entry is passed to pip as it is.
   */
  lemma ArgsNameHashedFiles(u: Unit, w: World.World, i: nat)
    requires i < |u.config.dependencies|
    ensures var dep := u.config.dependencies[i];
            (Strs.HasSuffix(dep, ".txt") ==>
               Arg(u.ctx, dep) == "-r " + HashedPath(u.ctx, dep)
               && Piece(u.ctx, w, dep) == World.ReadFile(w, HashedPath(u.ctx, dep)))
            && (!Strs.HasSuffix(dep, ".txt") ==> Arg(u.ctx, dep) == dep && Piece(u.ctx, w, dep) == Ok(dep))
  {
  }

  /**
   * As written, a relative requirements entry is installed from the file its contents
   * were hashed from, and an entry that is not a requirements file is passed as it is.
   */
  lemma InstalledRelativeFilesAreHashed(u: Unit, w: World.World, i: nat)
    requires i < |u.config.dependencies| && !Paths.IsAbs(u.config.dependencies[i])
    ensures var dep := u.config.dependencies[i];
            (Strs.HasSuffix(dep, ".txt") ==>
               Args(u)[i] == "-r " + HashedPath(u.ctx, dep)
               && Piece(u.ctx, w, dep) == World.ReadFile(w, HashedPath(u.ctx, dep)))
            && (!Strs.HasSuffix(dep, ".txt") ==> Args(u)[i] == dep && Piece(u.ctx, w, dep) == Ok(dep))
  {
    AsWrittenAgreesOnRelative(u.ctx, u.config.dependencies[i]);
    ArgsNameHashedFiles(u, w, i);
  }

  /** For a relative entry, the argument as written and the corrected one agree. */
  lemma AsWrittenAgreesOnRelative(ctx: LegacyPaths.Ctx, dep: string)
    requires !Paths.IsAbs(dep)
    ensures ArgAsWritten(ctx, dep) == Arg(ctx, dep)
  {
  }

  /**
   * An absolute requirements file is hashed from where it is but, as written, installed
   * from below the project root: with root `/a`, the entry `/b` (ending in ".txt") is
   * read from `/b` yet installed with `-r /a/b`.
   */
  lemma AsWrittenMisplacesAbsolute(ctx: LegacyPaths.Ctx, a: string, b: string)
    requires LegacyPaths.Segment(a) && LegacyPaths.Segment(b) && Strs.HasSuffix(b, ".txt")
    requires ctx.root == "/" + a
    ensures HashedPath(ctx, "/" + b) == "/" + b
    ensures ArgAsWritten(ctx, "/" + b) == "-r /" + a + "/" + b
    ensures Arg(ctx, "/" + b) == "-r /" + b
    ensures ArgAsWritten(ctx, "/" + b) != Arg(ctx, "/" + b)
  {
    var dep := "/" + b;
    assert dep[|dep| - 4..] == b[|b| - 4..];
    assert Strs.HasSuffix(dep, ".txt") && Paths.IsAbs(dep);
    LegacyPaths.RootPathNestsAbsolute(ctx, a, b);
    assert ArgAsWritten(ctx, dep) == "-r " + ("/" + a + "/" + b);
    RequirementFlag(a, b);
    assert Arg(ctx, dep) == "-r " + dep;
  }

  /** The `-r` flag followed by a rooted path. */
  lemma RequirementFlag(a: string, b: string)
    ensures "-r " + ("/" + a + "/" + b) == "-r /" + a + "/" + b
    ensures "-r " + ("/" + b) == "-r /" + b
  {
    assert "-r /" == "-r " + "/";
  }

  /** The argument loop of `autoInstallArgs`: `-r` and the entry below the root for a ".txt" entry. */
  method AutoInstallArgs(u: Unit) returns (r: string)
    ensures r == InstallArgs(u)
  {
    var deps := u.config.dependencies;
    var args: seq<string> := [];
    for i := 0 to |deps|
      invariant args == Args(u)[..i]
    {
      var dep := deps[i];
      assert Args(u)[..i + 1] == Args(u)[..i] + [ArgAsWritten(u.ctx, dep)];
      if Strs.HasSuffix(dep, ".txt") {
        var fullPath := LegacyPaths.RootPath(u.ctx, [dep]);
        args := args + ["-r " + fullPath];
      } else {
        args := args + [dep];
      }
    }
    assert Args(u)[..|deps|] == Args(u);
    r := Strs.Join(args, " ");
  }

  // ---------------------------------------------------------------- activation

  /** Upgrade pip and virtualenv, then create the virtualenv. */
  function CreateLines(u: Unit): seq<string> {
    [Strs.Join([u.config.prepPipInstallCommand, "--upgrade", "pip", "virtualenv"], " "),
     Strs.Join([u.config.virtualEnvCommand, "-p", u.config.python, VenvDir(u)], " ")]
  }

  /** Source `bin/activate` without its prompt change. */
  function SourceLine(u: Unit): string {
    Strs.Join(["VIRTUAL_ENV_DISABLE_PROMPT=1", ".", ActivatePath(u)], " ")
  }

  /** Upgrade pip inside a new virtualenv. */
  function UpgradeLine(u: Unit): string {
    Strs.Join([u.config.prepPipInstallCommand, "--upgrade", "pip"], " ")
  }

  /** Install every dependency, then record the hash. */
  function InstallLines(u: Unit, hash: string): seq<string> {
    [Strs.Join([u.config.pipInstallCommand, InstallArgs(u)], " "),
     Strs.Join(["echo", hash, ">", HashPath(u)], " ")]
  }

  /**
   * What `ShellActivateCommands` emits, or the hash error that stops it; the virtualenv is
   * always sourced.
   */
  function Activation(u: Unit, w: World.World): (r: Result<seq<string>>)
    ensures r.Err? <==> DepHash(u, w).Err?
    ensures r.Ok? ==> SourceLine(u) in r.value
  {
    var current :- DepHash(u, w);
    Ok(ActivationFor(u, w, current))
  }

  /** The activation lines once the current hash is known. */
  function ActivationFor(u: Unit, w: World.World, current: string): seq<string> {
    var missing := !VenvExists(u, w);
    (if missing then CreateLines(u) else [])
    + [SourceLine(u)]
    + (if missing then [UpgradeLine(u)] else [])
    + (if current != LastHash(u, w) && u.config.autoInstallDeps then InstallLines(u, current) else [])
  }

  /** `ShellActivateCommands`: the lines appended one group at a time, as `addArgs` does. */
  method ShellActivateCommands(u: Unit, w: World.World) returns (r: Result<seq<string>>)
    ensures r == Activation(u, w)
  {
    var currentDepHash := CalculateDepHash(u, w);
    if currentDepHash.Err? {
      return Err(currentDepHash.msg);
    }
    var lines := LinesFor(u, w, currentDepHash.value);
    r := Ok(lines);
  }

  /** The lines of `ShellActivateCommands`, appended group by group, once the hash is computed. */
  method LinesFor(u: Unit, w: World.World, current: string) returns (lines: seq<string>)
    ensures lines == ActivationFor(u, w, current)
  {
    var lastDepHash := LastHash(u, w);
    var hashChanged := current != lastDepHash;
    lines := [];
    if !VenvExists(u, w) {
      lines := lines + [Strs.Join([u.config.prepPipInstallCommand, "--upgrade", "pip", "virtualenv"], " ")];
      lines := lines + [Strs.Join([u.config.virtualEnvCommand, "-p", u.config.python, VenvDir(u)], " ")];
      assert lines == CreateLines(u);
    }
    ghost var created := lines;
    lines := lines + [Strs.Join(["VIRTUAL_ENV_DISABLE_PROMPT=1", ".", ActivatePath(u)], " ")];
    if !VenvExists(u, w) {
      lines := lines + [Strs.Join([u.config.prepPipInstallCommand, "--upgrade", "pip"], " ")];
    }
    assert lines == created + [SourceLine(u)] + (if !VenvExists(u, w) then [UpgradeLine(u)] else []);
    ghost var prepared := lines;
    if hashChanged && u.config.autoInstallDeps {
      var args := AutoInstallArgs(u);
      lines := lines + [Strs.Join([u.config.pipInstallCommand, args], " ")];
      lines := lines + [Strs.Join(["echo", current, ">", HashPath(u)], " ")];
      assert lines == prepared + InstallLines(u, current);
    }
  }

  function Deactivation(u: Unit): seq<string> {
    ["deactivate"]
  }

  // ---------------------------------------------------------------- properties

  /**
   * The shape of the activation: creation lines and the pip upgrade around the source line
   * only when the virtualenv is missing, and the two install lines at the end exactly
   * when the hash changed and auto-install is on.
   */
  lemma ActivationShape(u: Unit, w: World.World)
    requires DepHash(u, w).Ok?
    ensures Activation(u, w).Ok?
    ensures var lines := Activation(u, w).value;
            var base := if VenvExists(u, w) then 1 else 4;
            var install := DepHash(u, w).value != LastHash(u, w) && u.config.autoInstallDeps;
            |lines| == base + (if install then 2 else 0)
            && (VenvExists(u, w) ==> lines[0] == SourceLine(u))
            && (!VenvExists(u, w) ==> lines[..4] == CreateLines(u) + [SourceLine(u), UpgradeLine(u)])
            && (install ==> lines[base..] == InstallLines(u, DepHash(u, w).value))
  {
  }

  /**
   * There is no check for an empty dependency list: with none, auto-install on and a
   * recorded hash, the install line still runs, with no arguments.
   */
  lemma InstallsWithoutDependencies(u: Unit, w: World.World)
    requires |u.config.dependencies| == 0 && u.config.autoInstallDeps && LastHash(u, w) != ""
    ensures Activation(u, w).Ok?
    ensures var lines := Activation(u, w).value;
            lines[|lines| - 2] == u.config.pipInstallCommand + " "
            && lines[|lines| - 1] == Strs.Join(["echo", "", ">", HashPath(u)], " ")
  {
    assert DepHash(u, w) == Ok("");
    var missing := !VenvExists(u, w);
    var pre := (if missing then CreateLines(u) else []) + [SourceLine(u)] + (if missing then [UpgradeLine(u)] else []);
    assert Activation(u, w) == Ok(pre + InstallLines(u, ""));
    InstallLinesBare(u);
  }

  /** With no requirements the install line is the pip command and a trailing space. */
  lemma InstallLinesBare(u: Unit)
    requires |u.config.dependencies| == 0
    ensures InstallLines(u, "")[0] == u.config.pipInstallCommand + " "
  {
    assert InstallArgs(u) == "" by { assert Args(u) == []; }
    assert [u.config.pipInstallCommand, ""][1..] == [""];
    assert Strs.Join([u.config.pipInstallCommand, ""], " ") == u.config.pipInstallCommand + " " + "";
    assert u.config.pipInstallCommand + " " + "" == u.config.pipInstallCommand + " ";
  }

  /** Writing a file the hash does not read leaves the hash input as it was. */
  lemma HashInputUntouched(ctx: LegacyPaths.Ctx, w: World.World, w': World.World, deps: seq<string>)
    requires w'.files.Keys == w.files.Keys
    requires forall i :: 0 <= i < |deps| && Strs.HasSuffix(deps[i], ".txt") && HashedPath(ctx, deps[i]) in w.files ==>
               w'.files[HashedPath(ctx, deps[i])] == w.files[HashedPath(ctx, deps[i])]
    ensures HashInput(ctx, w', deps) == HashInput(ctx, w, deps)
  {
    assert Pieces(ctx, w', deps) == Pieces(ctx, w, deps);
  }

  /**
   * After the recording line has written the hash (followed by a newline) to the hash file,
   * the next activation with the same inputs installs nothing.
   */
  lemma RecordedHashStopsReinstall(u: Unit, w: World.World, hash: string)
    requires DepHash(u, w) == Ok(hash) && HashPath(u) in w.files
    requires forall i :: 0 <= i < |hash| ==> !Strs.IsSpace(hash[i])
    requires forall i :: 0 <= i < |u.config.dependencies| ==> HashedPath(u.ctx, u.config.dependencies[i]) != HashPath(u)
    ensures var w' := w.(files := w.files[HashPath(u) := hash + "\n"]);
            Activation(u, w').Ok? && |Activation(u, w').value| == (if VenvExists(u, w) then 1 else 4)
  {
    var w' := w.(files := w.files[HashPath(u) := hash + "\n"]);
    RecordedHashRead(u, w, hash);
    ActivationShape(u, w');
  }

  /** Writing the hash file leaves the inputs alone: the hash recomputed is the one read back. */
  lemma RecordedHashRead(u: Unit, w: World.World, hash: string)
    requires DepHash(u, w) == Ok(hash) && HashPath(u) in w.files
    requires forall i :: 0 <= i < |hash| ==> !Strs.IsSpace(hash[i])
    requires forall i :: 0 <= i < |u.config.dependencies| ==> HashedPath(u.ctx, u.config.dependencies[i]) != HashPath(u)
    ensures var w' := w.(files := w.files[HashPath(u) := hash + "\n"]);
            LastHash(u, w') == hash && DepHash(u, w') == Ok(hash) && VenvExists(u, w') == VenvExists(u, w)
  {
    var w' := w.(files := w.files[HashPath(u) := hash + "\n"]);
    assert LastHash(u, w') == hash by {
      Strs.TrimSpaceLine(hash);
    }
    assert HashInput(u.ctx, w', u.config.dependencies) == HashInput(u.ctx, w, u.config.dependencies) by {
      HashInputUntouched(u.ctx, w, w', u.config.dependencies);
    }
  }
}
