/**
 * modules/python.go: the `python` unit.  It keeps a virtualenv under the project's
 * storage directory, activates it the way `bin/activate` does (through an env unit),
 * and reinstalls the dependencies whenever their hash differs from the one recorded
 * after the last install.
 */
module Python {
  import opened Wrappers
  import Json
  import Util
  import World
  import Strs
  import Paths
  import ProjectPaths
  import EnvVar

  const DefaultPython: string := "python3.6"
  const DefaultVirtualenv: string := "virtualenv"
  const DefaultPipInstallCommand: string := "pip install"

  /** `PyModuleConfig`, after the constructor has filled in the defaults. */
  datatype Config = Config(
    python: string,
    dependencies: seq<string>,
    additionalTrackFiles: seq<string>,
    virtualenvCommand: string)

  datatype Unit = Unit(config: Config, name: string, ctx: ProjectPaths.Ctx)

  /** `NewPythonModule`: decode the payload, then default an empty interpreter and virtualenv command. */
  function New(ctx: ProjectPaths.Ctx, name: string, raw: Json.Raw): (r: Result<Unit>)
    ensures r.Ok? ==> r.value.config.python != "" && r.value.config.virtualenvCommand != ""
    ensures r.Ok? ==> r.value.name == name && r.value.ctx == ctx
    ensures raw.Absent? ==> r == Ok(Unit(Config(DefaultPython, [], [], DefaultVirtualenv), name, ctx))
  {
    var ms :- Util.UnmarshalEmpty(raw, "modules.PyModuleConfig");
    var python :- Json.GetString(ms, "Python");
    var deps :- Json.GetStrings(ms, "Dependencies");
    var track :- Json.GetStrings(ms, "additional_track_files");
    var venv :- Json.GetString(ms, "virtualenv_command");
    Ok(Unit(Config(if python == "" then DefaultPython else python, deps, track,
                   if venv == "" then DefaultVirtualenv else venv), name, ctx))
  }

  function VenvDir(u: Unit): string {
    ProjectPaths.StoragePath(u.ctx, ["pyvenvs", u.name])
  }

  /** The env unit that does what `bin/activate` does. */
  function VenvVars(u: Unit): EnvVar.Unit {
    var dir := VenvDir(u);
    EnvVar.Unit(EnvVar.Config([("VIRTUAL_ENV", dir), ("PATH", dir + "/bin:${PATH}")], [], ["PYTHONHOME"]), u.ctx)
  }

  function HashPath(u: Unit): string {
    Paths.Join([VenvDir(u), "autoinstall_dep_sha.txt"])
  }

  /** The hash recorded by the last install; a file that cannot be read gives "". */
  function LastHash(u: Unit, w: World.World): string {
    match World.ReadFile(w, HashPath(u))
    case Ok(data) => Strs.TrimSpace(data)
    case Err(_) => ""
  }

  predicate VenvExists(u: Unit, w: World.World) {
    World.PathExists(w, Paths.Join([VenvDir(u), "bin"]))
  }

  // ---------------------------------------------------------------- the dependency hash

  /** The resolved paths of the dependencies that name requirement files. */
  function RequirementFiles(ctx: ProjectPaths.Ctx, deps: seq<string>): (r: seq<string>)
    ensures |r| <= |deps|
  {
    if |deps| == 0 then []
    else
      var last := deps[|deps| - 1];
      RequirementFiles(ctx, deps[..|deps| - 1])
      + (if Strs.HasSuffix(last, ".txt") then [ProjectPaths.ResolveRootPath(ctx, last)] else [])
  }

  function Resolved(ctx: ProjectPaths.Ctx, files: seq<string>): (r: seq<string>)
    ensures |r| == |files| && forall i :: 0 <= i < |files| ==> r[i] == ProjectPaths.ResolveRootPath(ctx, files[i])
  {
    if |files| == 0 then [] else Resolved(ctx, files[..|files| - 1]) + [ProjectPaths.ResolveRootPath(ctx, files[|files| - 1])]
  }

  /** Every file whose contents enter the hash, in the order they are read. */
  function TrackedFiles(u: Unit): seq<string> {
    RequirementFiles(u.ctx, u.config.dependencies) + Resolved(u.ctx, u.config.additionalTrackFiles)
  }

  /** The contents of the files one after the other, or the first read error. */
  function Contents(w: World.World, paths: seq<string>): Result<string> {
    if |paths| == 0 then Ok("")
    else
      var init :- Contents(w, paths[..|paths| - 1]);
      var last :- World.ReadFile(w, paths[|paths| - 1]);
      Ok(init + last)
  }

  /**
   * `autoInstallCalculateDepHash`: no dependencies give the empty hash; otherwise the digest
   * of the JSON list of dependencies followed by the contents of every tracked file.
   */
  function DepHash(u: Unit, w: World.World): Result<string> {
    if |u.config.dependencies| == 0 then Ok("")
    else
      var contents :- Contents(w, TrackedFiles(u));
      Ok(w.digest(Json.Encode(Json.StringArray(u.config.dependencies)) + contents))
  }

  lemma {:induction false} RequirementFilesAppend(ctx: ProjectPaths.Ctx, deps: seq<string>, i: nat)
    requires i < |deps|
    ensures RequirementFiles(ctx, deps[..i + 1])
            == RequirementFiles(ctx, deps[..i])
               + (if Strs.HasSuffix(deps[i], ".txt") then [ProjectPaths.ResolveRootPath(ctx, deps[i])] else [])
  {
    assert deps[..i + 1][..i] == deps[..i];
  }

  /** Once a read has failed, reading more files keeps that error. */
  lemma {:induction false} ContentsFailureSticks(w: World.World, xs: seq<string>, ys: seq<string>)
    requires Contents(w, xs).Err?
    ensures Contents(w, xs + ys) == Contents(w, xs)
    decreases |ys|
  {
    if |ys| == 0 {
      assert xs + ys == xs;
    } else {
      var front := ys[..|ys| - 1];
      ContentsFailureSticks(w, xs, front);
      assert (xs + ys)[..|xs + ys| - 1] == xs + front;
    }
  }

  lemma ContentsStep(w: World.World, xs: seq<string>, p: string)
    ensures Contents(w, xs + [p]) == (var init :- Contents(w, xs); var last :- World.ReadFile(w, p); Ok(init + last))
  {
    assert (xs + [p])[..|xs + [p]| - 1] == xs;
  }

  /** Reads the files in order into one text; the first file that cannot be read stops it. */
  method ReadFiles(w: World.World, paths: seq<string>) returns (r: Result<string>)
    ensures r == Contents(w, paths)
  {
    var read := "";
    var i := 0;
    while i < |paths|
      invariant 0 <= i <= |paths|
      invariant Contents(w, paths[..i]) == Ok(read)
    {
      ContentsStep(w, paths[..i], paths[i]);
      assert paths[..i + 1] == paths[..i] + [paths[i]];
      var data := World.ReadFile(w, paths[i]);
      if data.Err? {
        ContentsFailureSticks(w, paths[..i + 1], paths[i + 1..]);
        assert paths == paths[..i + 1] + paths[i + 1..];
        return Err(data.msg);
      }
      read := read + data.value;
      i := i + 1;
    }
    assert paths[..i] == paths;
    r := Ok(read);
  }

  /** The first loop of `autoInstallCalculateDepHash`: the ".txt" dependencies, resolved below the root. */
  method TrackRequirements(ctx: ProjectPaths.Ctx, deps: seq<string>) returns (tracked: seq<string>)
    ensures tracked == RequirementFiles(ctx, deps)
  {
    tracked := [];
    var i := 0;
    while i < |deps|
      invariant 0 <= i <= |deps|
      invariant tracked == RequirementFiles(ctx, deps[..i])
    {
      RequirementFilesAppend(ctx, deps, i);
      if Strs.HasSuffix(deps[i], ".txt") {
        tracked := tracked + [ProjectPaths.ResolveRootPath(ctx, deps[i])];
      }
      i := i + 1;
    }
    assert deps[..i] == deps;
  }

  /** The second loop of `autoInstallCalculateDepHash`: every additional tracked file, resolved below the root. */
  method TrackAdditional(ctx: ProjectPaths.Ctx, tracked0: seq<string>, extra: seq<string>) returns (tracked: seq<string>)
    ensures tracked == tracked0 + Resolved(ctx, extra)
  {
    tracked := tracked0;
    var j := 0;
    while j < |extra|
      invariant 0 <= j <= |extra|
      invariant tracked == tracked0 + Resolved(ctx, extra[..j])
    {
      assert extra[..j + 1][..j] == extra[..j];
      tracked := tracked + [ProjectPaths.ResolveRootPath(ctx, extra[j])];
      j := j + 1;
    }
    assert extra[..j] == extra;
  }

  /**
   * `autoInstallCalculateDepHash`.  The Go loops resolve and read each tracked file in
   * turn; reading has no effect, so the model collects the paths first and reads them after.
   */
  method CalculateDepHash(u: Unit, w: World.World) returns (r: Result<string>)
    ensures r == DepHash(u, w)
  {
    var deps := u.config.dependencies;
    if |deps| == 0 {
      return Ok("");
    }
    var data := Json.Encode(Json.StringArray(deps));
    var tracked := TrackRequirements(u.ctx, deps);
    tracked := TrackAdditional(u.ctx, tracked, u.config.additionalTrackFiles);
    var contents := ReadFiles(w, tracked);
    if contents.Err? {
      return Err(contents.msg);
    }
    r := Ok(w.digest(data + contents.value));
  }

  // ---------------------------------------------------------------- install commands

  /** The install command of one dependency: a `!` entry is a command of its own. */
  function InstallCmd(ctx: ProjectPaths.Ctx, dep: string): (r: string)
    ensures Strs.HasPrefix(dep, "!") ==> r == dep[1..]
    ensures !Strs.HasPrefix(dep, "!") ==> Strs.HasPrefix(r, DefaultPipInstallCommand + " ")
    ensures !Strs.HasPrefix(dep, "!") && Strs.HasSuffix(dep, ".txt") ==>
              r == DefaultPipInstallCommand + " -r " + ProjectPaths.RootPath(ctx, [dep])
    ensures !Strs.HasPrefix(dep, "!") && !Strs.HasSuffix(dep, ".txt") ==> r == DefaultPipInstallCommand + " " + dep
  {
    if Strs.HasPrefix(dep, "!") then Strs.TrimPrefix(dep, "!")
    else
      var cmd := DefaultPipInstallCommand + " ";
      if Strs.HasSuffix(dep, ".txt") then
        assert (cmd + "-r " + ProjectPaths.RootPath(ctx, [dep]))[..|cmd|] == cmd;
        cmd + "-r " + ProjectPaths.RootPath(ctx, [dep])
      else
        assert (cmd + dep)[..|cmd|] == cmd;
        cmd + dep
  }

  /** One install command per dependency, in the order they are listed. */
  function InstallCmds(ctx: ProjectPaths.Ctx, deps: seq<string>): (r: seq<string>)
    ensures |r| == |deps| && forall i :: 0 <= i < |deps| ==> r[i] == InstallCmd(ctx, deps[i])
  {
    if |deps| == 0 then [] else [InstallCmd(ctx, deps[0])] + InstallCmds(ctx, deps[1..])
  }

  method AutoInstallCmds(u: Unit) returns (cmds: seq<string>)
    ensures cmds == InstallCmds(u.ctx, u.config.dependencies)
  {
    var deps := u.config.dependencies;
    cmds := [];
    var i := 0;
    while i < |deps|
      invariant 0 <= i <= |deps|
      invariant cmds == InstallCmds(u.ctx, deps[..i])
    {
      assert InstallCmds(u.ctx, deps[..i + 1]) == InstallCmds(u.ctx, deps[..i]) + [InstallCmd(u.ctx, deps[i])];
      var dep := deps[i];
      if Strs.HasPrefix(dep, "!") {
        cmds := cmds + [Strs.TrimPrefix(dep, "!")];
      } else {
        var cmd := DefaultPipInstallCommand + " ";
        if Strs.HasSuffix(dep, ".txt") {
          var fullPath := ProjectPaths.RootPath(u.ctx, [dep]);
          cmd := cmd + "-r " + fullPath;
        } else {
          cmd := cmd + dep;
        }
        cmds := cmds + [cmd];
      }
      i := i + 1;
    }
    assert deps[..i] == deps;
  }

  // ---------------------------------------------------------------- activation

  /** The line that records a hash once the install lines have run. */
  function RecordHash(u: Unit, hash: string): string {
    Strs.Join(["echo", hash, ">", HashPath(u)], " ")
  }

  /** The line that creates the virtualenv, when it does not exist yet. */
  function CreateLines(u: Unit, w: World.World): seq<string> {
    if !VenvExists(u, w) then [Strs.Join([u.config.virtualenvCommand, "-p", u.config.python, VenvDir(u)], " ")]
    else []
  }

  /** What the virtualenv's env unit sets and unsets. */
  function VenvLines(u: Unit): seq<EnvVar.Line> {
    [EnvVar.Export("VIRTUAL_ENV", VenvDir(u)), EnvVar.Export("PATH", VenvDir(u) + "/bin:${PATH}"), EnvVar.Unset("PYTHONHOME")]
  }

  /** The install lines and the line recording the hash, when the hash changed and there are dependencies. */
  function InstallLines(u: Unit, current: string, last: string): seq<string> {
    if current != last && |u.config.dependencies| > 0
    then InstallCmds(u.ctx, u.config.dependencies) + [RecordHash(u, current)]
    else []
  }

  /**
   * What `ShellActivateCommands` emits, or the error that stops it: only hashing can fail,
   * and the virtualenv's three variable lines come right after the creation line, if any.
   */
  function Activation(u: Unit, w: World.World): (r: Result<seq<string>>)
    ensures r.Err? <==> DepHash(u, w).Err?
    ensures r.Ok? ==> var k := if VenvExists(u, w) then 0 else 1;
                      k + 3 <= |r.value| && r.value[k..k + 3] == EnvVar.Texts(VenvLines(u))
  {
    var current :- DepHash(u, w);
    Ok(CreateLines(u, w) + EnvVar.Texts(VenvLines(u)) + InstallLines(u, current, LastHash(u, w)))
  }

  method ShellActivateCommands(u: Unit, w: World.World) returns (r: Result<seq<string>>)
    ensures r == Activation(u, w)
  {
    var currentDepHash := CalculateDepHash(u, w);
    if currentDepHash.Err? {
      return Err(currentDepHash.msg);
    }
    var lastDepHash := LastHash(u, w);
    var hashChanged := currentDepHash.value != lastDepHash;
    var lines: seq<string> := [];
    if !VenvExists(u, w) {
      lines := [Strs.Join([u.config.virtualenvCommand, "-p", u.config.python, VenvDir(u)], " ")];
    }
    // The env unit reads no files, so its error return cannot happen.
    VenvVarsActivate(u, w);
    var evCommands := EnvVar.ShellActivateCommands(VenvVars(u), w);
    lines := lines + evCommands.value;
    var install: seq<string> := [];
    if hashChanged && |u.config.dependencies| > 0 {
      install := AutoInstallCmds(u);
      install := install + [RecordHash(u, currentDepHash.value)];
    }
    assert install == InstallLines(u, currentDepHash.value, lastDepHash);
    r := Ok(lines + install);
  }

  method ShellDeactivateCommands(u: Unit, w: World.World) returns (r: seq<string>)
    ensures r == EnvVar.Texts(EnvVar.Deactivation(VenvVars(u), w.env))
  {
    r := EnvVar.ShellDeactivateCommands(VenvVars(u), w);
  }

  // ---------------------------------------------------------------- properties

  /** The env part never fails: the unit it builds reads no files. */
  lemma VenvVarsActivate(u: Unit, w: World.World)
    ensures EnvVar.Activation(VenvVars(u), w) == Ok(VenvLines(u))
  {
    var ev := VenvVars(u);
    assert EnvVar.FilesLines(ev.ctx, ev.config.files, w) == Ok([]);
    var exports := [EnvVar.Export("VIRTUAL_ENV", VenvDir(u)), EnvVar.Export("PATH", VenvDir(u) + "/bin:${PATH}")];
    assert EnvVar.Exports(ev.config.vars) == exports;
    assert EnvVar.Unsets(ev.config.unsetVars) == [EnvVar.Unset("PYTHONHOME")];
    var none: seq<EnvVar.Line> := [];
    assert EnvVar.Activation(ev, w) == Ok(none + exports + [EnvVar.Unset("PYTHONHOME")]);
    assert none + exports + [EnvVar.Unset("PYTHONHOME")]
           == [EnvVar.Export("VIRTUAL_ENV", VenvDir(u)), EnvVar.Export("PATH", VenvDir(u) + "/bin:${PATH}"),
               EnvVar.Unset("PYTHONHOME")];
  }

  /**
   * Read by the shell, the virtualenv's lines point `VIRTUAL_ENV` at the virtualenv, put
   * its `bin` directory in front of the former `PATH` and unset `PYTHONHOME`.
   */
  lemma ActivationPrependsBin(u: Unit, env: map<string, string>)
    requires EnvVar.Plain(VenvDir(u))
    ensures EnvVar.ShellRun(env, VenvLines(u))
            == Some(env["VIRTUAL_ENV" := VenvDir(u)]["PATH" := VenvDir(u) + "/bin:" + EnvVar.Param(env, "PATH")] - {"PYTHONHOME"})
  {
    VenvLinesRun(VenvDir(u), env);
  }

  lemma VenvLinesRun(dir: string, env: map<string, string>)
    requires EnvVar.Plain(dir)
    ensures EnvVar.ShellRun(env, [EnvVar.Export("VIRTUAL_ENV", dir), EnvVar.Export("PATH", dir + "/bin:${PATH}"), EnvVar.Unset("PYTHONHOME")])
            == Some(env["VIRTUAL_ENV" := dir]["PATH" := dir + "/bin:" + EnvVar.Param(env, "PATH")] - {"PYTHONHOME"})
  {
    var ls := [EnvVar.Export("VIRTUAL_ENV", dir), EnvVar.Export("PATH", dir + "/bin:${PATH}"), EnvVar.Unset("PYTHONHOME")];
    var e1 := env["VIRTUAL_ENV" := dir];
    EnvVar.PlainExpands(env, dir);
    assert EnvVar.ShellApply(env, ls[0]) == Some(e1);
    assert EnvVar.Plain("/bin:");
    EnvVar.PlainAppend(dir, "/bin:");
    assert EnvVar.IsName("PATH");
    EnvVar.PlainThenParam(e1, dir + "/bin:", "PATH");
    assert dir + "/bin:" + "${" + "PATH" + "}" == dir + "/bin:${PATH}";
    assert EnvVar.Param(e1, "PATH") == EnvVar.Param(env, "PATH");
    var e2 := e1["PATH" := dir + "/bin:" + EnvVar.Param(env, "PATH")];
    assert EnvVar.ShellApply(e1, ls[1]) == Some(e2);
    assert EnvVar.ShellApply(e2, ls[2]) == Some(e2 - {"PYTHONHOME"});
    assert EnvVar.ShellRun(e2 - {"PYTHONHOME"}, ls[1..][1..][1..]) == Some(e2 - {"PYTHONHOME"});
    assert EnvVar.ShellRun(e2, ls[1..][1..]) == Some(e2 - {"PYTHONHOME"});
    assert EnvVar.ShellRun(e1, ls[1..]) == Some(e2 - {"PYTHONHOME"});
  }

  /**
   * Deactivation puts `VIRTUAL_ENV`, `PATH` and `PYTHONHOME` back as they were before the
   * virtualenv's lines ran, both read by the shell, when the virtualenv path and those
   * former values are plain text.
   */
  lemma DeactivationRestoresVenv(u: Unit, w: World.World, env: map<string, string>, k: string)
    requires k == "VIRTUAL_ENV" || k == "PATH" || k == "PYTHONHOME"
    requires EnvVar.Plain(VenvDir(u)) && EnvVar.PlainAt(env, ["VIRTUAL_ENV", "PATH", "PYTHONHOME"])
    ensures EnvVar.ShellRun(env, VenvLines(u)).Some?
    ensures var mid := EnvVar.ShellRun(env, VenvLines(u)).value;
            var back := EnvVar.ShellRun(mid, EnvVar.Deactivation(VenvVars(u), env));
            back.Some? && EnvVar.Lookup(back.value, k) == EnvVar.Lookup(env, k)
  {
    VenvVarsActivate(u, w);
    ActivationPrependsBin(u, env);
    assert Json.Keys(VenvVars(u).config.vars) == ["VIRTUAL_ENV", "PATH"];
    EnvVar.DeactivationRestores(VenvVars(u), w, env, k);
  }

  /** Without dependencies nothing is hashed and nothing is installed. */
  lemma NoDependenciesNoInstall(u: Unit, w: World.World)
    requires |u.config.dependencies| == 0
    ensures Activation(u, w).Ok?
    ensures |Activation(u, w).value| == (if VenvExists(u, w) then 3 else 4)
  {
  }

  /**
   * After the recording line has written the hash (followed by a newline) to the hash file,
   * the next activation with the same inputs installs nothing.
   */
  lemma RecordedHashStopsReinstall(u: Unit, w: World.World, hash: string)
    requires DepHash(u, w) == Ok(hash)
    requires forall i :: 0 <= i < |hash| ==> !Strs.IsSpace(hash[i])
    requires HashPath(u) !in TrackedFiles(u)
    ensures var w' := w.(files := w.files[HashPath(u) := hash + "\n"]);
            Activation(u, w').Ok? && |Activation(u, w').value| == (if VenvExists(u, w) then 3 else 4)
  {
    var w' := w.(files := w.files[HashPath(u) := hash + "\n"]);
    Strs.TrimSpaceLine(hash);
    assert LastHash(u, w') == hash;
    if |u.config.dependencies| > 0 {
      ContentsUntouched(w, w', TrackedFiles(u));
    }
    assert DepHash(u, w') == Ok(hash);
  }

  /** Writing a file outside `paths` does not change what reading them gives. */
  lemma {:induction false} ContentsUntouched(w: World.World, w': World.World, paths: seq<string>)
    requires forall p :: p in paths ==> World.ReadFile(w, p) == World.ReadFile(w', p)
    ensures Contents(w, paths) == Contents(w', paths)
    decreases |paths|
  {
    if |paths| > 0 {
      ContentsUntouched(w, w', paths[..|paths| - 1]);
      assert paths[|paths| - 1] in paths;
    }
  }

  /** The install lines run exactly when the hash changed and there are dependencies. */
  lemma InstallIffChanged(u: Unit, w: World.World)
    requires DepHash(u, w).Ok? && VenvExists(u, w)
    ensures Activation(u, w).Ok?
    ensures |Activation(u, w).value| > 3
            <==> DepHash(u, w).value != LastHash(u, w) && |u.config.dependencies| > 0
    ensures |Activation(u, w).value| > 3 ==>
              Activation(u, w).value[3..] == InstallCmds(u.ctx, u.config.dependencies) + [RecordHash(u, DepHash(u, w).value)]
  {
  }
}
