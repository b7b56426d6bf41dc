/**
 * cli.go: the glue between the project managers and the shell.  An activation command
 * puts the built-in prompt and jump modules in front of the project's own, then writes
 * the activation and deactivation files the shell helper sources, or, given arguments,
 * appends an `exec` module running them and assembles one script.  A script command runs
 * its script that way.  `LoadConfigCommands` turns the discovered configurations into
 * commands, the first configuration declaring a project name winning.
 */
module Cli {
  import opened Wrappers
  import Strs
  import Json
  import World
  import Paths
  import Venvy
  import Registry
  import Exec
  import Manager
  import ConfigManagers
  import DataManagers
  import Loader
  import Util

  // ---------------------------------------------------------------- environment

  /** The variables the shell helper sets, `VENVY_` being the upper-cased project name. */
  const ActivateFileEnvVar: string := "VENVY_ACTIVATE_FILE"
  const DeactivateFileEnvVar: string := "VENVY_DEACTIVATE_FILE"
  const DisableHistoryEnvVar: string := "VENVY_DISABLE_CONFIG_HISTORY"
  const EvalHelperCommand: string := "eval $(venvy shell-init)"

  datatype EvalPathsResult = EvalPathsResult(activate: string, deactivate: string, bothSet: bool)

  /** `EvalPaths`: the two file paths the shell helper passes, and whether it passed both. */
  function EvalPaths(w: World.World): (r: EvalPathsResult)
    ensures r.bothSet <==> ActivateFileEnvVar in w.env && w.env[ActivateFileEnvVar] != ""
                           && DeactivateFileEnvVar in w.env && w.env[DeactivateFileEnvVar] != ""
    ensures r.bothSet ==> r.activate == w.env[ActivateFileEnvVar] && r.deactivate == w.env[DeactivateFileEnvVar]
  {
    var activate := World.Getenv(w, ActivateFileEnvVar);
    var deactivate := World.Getenv(w, DeactivateFileEnvVar);
    EvalPathsResult(activate, deactivate, activate != "" && deactivate != "")
  }

  /**
   * Whether `LoadConfigCommands` reads and rewrites the history: only a non-empty disable
   * variable turns it off (a CI environment is only logged).
   */
  function UseHistory(w: World.World): (r: bool)
    ensures r <==> DisableHistoryEnvVar !in w.env || w.env[DisableHistoryEnvVar] == ""
  {
    World.Getenv(w, DisableHistoryEnvVar) == ""
  }

  // ---------------------------------------------------------------- the modules the commands add

  const DefaultJumpModule: Venvy.Module := Venvy.Module("jump_builtin", "jump", Json.Absent)
  const DefaultPS1Module: Venvy.Module := Venvy.Module("ps1_builtin", "ps1", Json.Absent)
  const ExecModuleName: string := "exec_subcommand"

  /** What `json.Marshal` makes of an `ExecConfig` with one activation command: the unset list is `null`. */
  function ExecMembers(cmd: string): Json.Members {
    [(Exec.ActivationKey, Json.StringArray([cmd])), (Exec.DeactivationKey, Json.Null)]
  }

  function ExecPayload(cmd: string): Json.Raw {
    Json.Doc(Json.Obj(ExecMembers(cmd)))
  }

  /** The `exec` module `issueExec` appends. */
  function ExecModule(cmd: string): Venvy.Module {
    Venvy.Module(ExecModuleName, "exec", ExecPayload(cmd))
  }

  /** A member followed by a `null` one: only the first can give a value. */
  lemma ValuesThenNull(k1: string, v1: Json.Json, k2: string, field: string)
    requires v1 != Json.Null
    ensures Json.Values([(k1, v1), (k2, Json.Null)], field) == if Json.KeyMatches(k1, field) then [v1] else []
  {
    var ms := [(k1, v1), (k2, Json.Null)];
    assert ms[1..] == [(k2, Json.Null)];
    assert ms[1..][1..] == [];
  }

  lemma PairValues(ak: string, a: Json.Json, dk: string)
    requires a != Json.Null && !Json.KeyMatches(ak, dk)
    ensures Json.Values([(ak, a), (dk, Json.Null)], ak) == [a]
    ensures Json.Values([(ak, a), (dk, Json.Null)], dk) == []
  {
    ValuesThenNull(ak, a, dk, ak);
    ValuesThenNull(ak, a, dk, dk);
  }

  /** The two lists of the appended module: the command, and nothing to undo. */
  lemma ExecMembersLists(cmd: string)
    ensures Json.GetStrings(ExecMembers(cmd), Exec.ActivationKey) == Ok([cmd])
    ensures Json.GetStrings(ExecMembers(cmd), Exec.DeactivationKey) == Ok([])
  {
    var ms := ExecMembers(cmd);
    Json.KeyMismatch(Exec.ActivationKey, Exec.DeactivationKey);
    PairValues(Exec.ActivationKey, Json.StringArray([cmd]), Exec.DeactivationKey);
    Exec.GetStringsOnce(ms, Exec.ActivationKey, [cmd]);
  }

  /** The appended module decodes to a unit that runs the command and has nothing to undo. */
  lemma ExecPayloadDecodes(cmd: string)
    ensures Exec.New(ExecPayload(cmd)) == Ok(Exec.Unit(Exec.Config([cmd], [])))
  {
    var ms := ExecMembers(cmd);
    ExecMembersLists(cmd);
    assert Util.UnmarshalEmpty(ExecPayload(cmd), "modules.ExecConfig") == Ok(ms);
    Exec.NewOfMembers(ExecPayload(cmd), ms, [cmd], []);
  }

  /** The setting of a project manager after `AppendModules(execModule)`. */
  function WithExec(st: Manager.Setting, cmd: string): Manager.Setting {
    st.(project := st.project.(modules := st.project.modules + [ExecModuleName]),
        related := Manager.Register(st.related, [ExecModule(cmd)]))
  }

  /** The results of a list with one more at the end: the first error, or all values. */
  lemma AllSnoc<T>(rs: seq<Result<T>>, x: Result<T>)
    ensures Manager.All(rs + [x]) == match Manager.All(rs)
                                       case Err(e) => Err(e)
                                       case Ok(vs) => (match x case Err(e) => Err(e) case Ok(v) => Ok(vs + [v]))
  {
    assert (rs + [x])[..|rs|] == rs;
  }

  /** The unit the exec module resolves to. */
  function ExecUnit(cmd: string): Manager.Named {
    Manager.Named(ExecModuleName, Registry.ExecUnit(Exec.Unit(Exec.Config([cmd], []))))
  }

  /** With the exec module appended, resolution yields the old units and then the exec unit. */
  lemma ResolveWithExec(st: Manager.Setting, w: World.World, cmd: string)
    requires "exec" in st.makers && st.makers["exec"] == Registry.MakeExec
    requires ExecModuleName !in st.project.modules
    ensures Manager.Resolve(WithExec(st, cmd), WithExec(st, cmd).project.modules, w)
            == match Manager.Resolve(st, st.project.modules, w)
               case Err(e) => Err(e)
               case Ok(us) => Ok(us + [ExecUnit(cmd)])
  {
    var st' := WithExec(st, cmd);
    var names := st.project.modules;
    var m := ExecModule(cmd);
    assert [m][..0] == [];
    assert Manager.Register(st.related, []) == st.related;
    assert st'.related == st.related[ExecModuleName := m];
    forall i | 0 <= i < |names|
      ensures Manager.ResolveOne(st', names[i], w) == Manager.ResolveOne(st, names[i], w)
    {
      assert names[i] != ExecModuleName;
    }
    var rs := Manager.ResolveEach(st, names, w);
    assert Manager.ResolveEach(st', names, w) == rs;
    assert (names + [ExecModuleName])[..|names|] == names;
    assert Manager.ResolveEach(st', names + [ExecModuleName], w) == rs + [Manager.ResolveOne(st', ExecModuleName, w)];
    ExecPayloadDecodes(cmd);
    assert Manager.ResolveOne(st', ExecModuleName, w) == Ok(ExecUnit(cmd));
    AllSnoc(rs, Ok(ExecUnit(cmd)));
  }

  lemma OutcomesSnoc(us: seq<Manager.Named>, u: Manager.Named, deactivate: bool, name: string, w: World.World)
    ensures Manager.Outcomes(us + [u], deactivate, name, w)
            == Manager.Outcomes(us, deactivate, name, w) + [Manager.Lines(u, deactivate, name, w)]
  {
    assert (us + [u])[..|us|] == us;
  }

  /** The exec unit's activation is its command; its deactivation is empty. */
  lemma ExecUnitLines(cmd: string, name: string, w: World.World)
    ensures Manager.Lines(ExecUnit(cmd), false, name, w) == Ok([cmd])
    ensures Registry.Deactivate(ExecUnit(cmd).unit, w) == Ok([])
  {
  }

  /** Collecting the activation lines of units followed by the exec unit adds its command at the end. */
  lemma CollectWithExec(us: seq<Manager.Named>, name: string, w: World.World, cmd: string)
    ensures Manager.Collect(us + [ExecUnit(cmd)], false, name, w)
            == match Manager.Collect(us, false, name, w) case Err(e) => Err(e) case Ok(lines) => Ok(lines + [cmd])
  {
    var os := Manager.Outcomes(us, false, name, w);
    OutcomesSnoc(us, ExecUnit(cmd), false, name, w);
    ExecUnitLines(cmd, name, w);
    AllSnoc(os, Ok([cmd]));
    if Manager.All(os).Ok? {
      Strs.ConcatAppend(Manager.All(os).value, [cmd]);
    }
  }

  /** Tearing down units followed by the exec unit gives the same lines: it goes first and has none. */
  lemma TeardownWithExec(us: seq<Manager.Named>, name: string, w: World.World, cmd: string)
    ensures Manager.Collect(Manager.Reverse(us + [ExecUnit(cmd)]), true, name, w)
            == Manager.Collect(Manager.Reverse(us), true, name, w)
  {
    var u := ExecUnit(cmd);
    ExecUnitLines(cmd, name, w);
    Manager.DeactivationReversed(us, name, w);
    Manager.DeactivationReversed(us + [u], name, w);
    var t := Manager.TeardownGroups(us, w);
    Manager.TeardownGroupsSnoc(us, u, w);
    assert Manager.Teardown(u, w) == [];
    assert Strs.Concat([[]] + t) == Strs.Concat(t);
  }

  /**
   * `issueExec` appends the exec module: its command becomes the last activation line,
   * after every line of the project's own modules.
   */
  lemma ExecRunsLast(st: Manager.Setting, w: World.World, cmd: string)
    requires "exec" in st.makers && st.makers["exec"] == Registry.MakeExec
    requires ExecModuleName !in st.project.modules
    ensures Manager.ActivationOf(WithExec(st, cmd), w)
            == match Manager.ActivationOf(st, w) case Err(e) => Err(e) case Ok(lines) => Ok(lines + [cmd])
  {
    ResolveWithExec(st, w, cmd);
    var r := Manager.Resolve(st, st.project.modules, w);
    if r.Ok? {
      CollectWithExec(r.value, st.project.name, w, cmd);
    }
  }

  /** The exec unit is torn down first and has nothing to undo: deactivation is unchanged. */
  lemma ExecLeavesDeactivation(st: Manager.Setting, w: World.World, cmd: string)
    requires "exec" in st.makers && st.makers["exec"] == Registry.MakeExec
    requires ExecModuleName !in st.project.modules
    ensures Manager.DeactivationOf(WithExec(st, cmd), w) == Manager.DeactivationOf(st, w)
  {
    ResolveWithExec(st, w, cmd);
    var r := Manager.Resolve(st, st.project.modules, w);
    if r.Ok? {
      TeardownWithExec(r.value, st.project.name, w, cmd);
    }
  }

  // ---------------------------------------------------------------- the scripts written and run

  /** The script `issueExec` runs: `set -e`, then the activation lines, then the deactivation lines. */
  function ScriptBody(act: seq<string>, deact: seq<string>): string {
    Strs.Join(["set -e", Strs.Join(act, "\n"), Strs.Join(deact, "\n")], "\n")
  }

  /** The script, or the first error of the two line lists (on which the command exits). */
  function ExecScript(act: Result<seq<string>>, deact: Result<seq<string>>): Result<string> {
    var a :- act;
    var d :- deact;
    Ok(ScriptBody(a, d))
  }

  /** The lines a list of lines shows in a file: an empty list still leaves one empty line. */
  function OrBlank(lines: seq<string>): seq<string> {
    if |lines| == 0 then [""] else lines
  }

  predicate SingleLines(lines: seq<string>) {
    forall i :: 0 <= i < |lines| ==> '\n' !in lines[i]
  }

  /** Read back line by line, the script is `set -e`, the activation lines, then the deactivation lines. */
  lemma ScriptBodyLines(act: seq<string>, deact: seq<string>)
    requires SingleLines(act) && SingleLines(deact)
    ensures Strs.Split(ScriptBody(act, deact), '\n') == ["set -e"] + OrBlank(act) + OrBlank(deact)
  {
    var a, d := OrBlank(act), OrBlank(deact);
    assert Strs.Join(a, "\n") == Strs.Join(act, "\n");
    assert Strs.Join(d, "\n") == Strs.Join(deact, "\n");
    Strs.JoinAppend(["set -e"], a, "\n");
    Strs.JoinAppend(["set -e"] + a, d, "\n");
    var parts := ["set -e", Strs.Join(act, "\n"), Strs.Join(deact, "\n")];
    assert parts[1..] == [Strs.Join(act, "\n"), Strs.Join(deact, "\n")];
    assert parts[1..][1..] == [Strs.Join(deact, "\n")];
    assert Strs.Join(parts[1..], "\n") == Strs.Join(act, "\n") + "\n" + Strs.Join(deact, "\n");
    assert Strs.Join(["set -e"], "\n") == "set -e";
    assert ScriptBody(act, deact) == Strs.Join(["set -e"] + a + d, "\n");
    Strs.JoinSplit(["set -e"] + a + d, '\n');
  }

  const Continuation: string := " && \\"

  /** The contents of an activation or deactivation file: the lines chained with `&&` and a line continuation. */
  function ActivationFile(lines: seq<string>): string {
    Strs.Join(lines, Continuation + "\n")
  }

  /** Every line but the last followed by the continuation. */
  function Continued(lines: seq<string>): (r: seq<string>)
    ensures |r| == |lines|
  {
    seq(|lines|, i requires 0 <= i < |lines| => if i < |lines| - 1 then lines[i] + Continuation else lines[i])
  }

  lemma {:induction false} JoinContinued(lines: seq<string>)
    requires |lines| >= 1
    ensures ActivationFile(lines) == Strs.Join(Continued(lines), "\n")
    decreases |lines|
  {
    if |lines| > 1 {
      JoinContinued(lines[1..]);
      assert Continued(lines)[1..] == Continued(lines[1..]);
    }
  }

  /**
   * Read back line by line, a written file holds each line once, in order, every one but
   * the last ending in `&& \`, so the shell runs the next line only if this one succeeded.
   */
  lemma ActivationFileLines(lines: seq<string>)
    requires |lines| >= 1 && SingleLines(lines)
    ensures Strs.Split(ActivationFile(lines), '\n') == Continued(lines)
  {
    JoinContinued(lines);
    forall i | 0 <= i < |lines| ensures '\n' !in Continued(lines)[i] {
      assert '\n' !in Continuation;
    }
    Strs.JoinSplit(Continued(lines), '\n');
  }

  /** What `issueActivate` leaves in the file system, or the first error (on which the command exits). */
  function ActivationFiles(files: map<string, string>, activatePath: string, deactivatePath: string,
                           act: Result<seq<string>>, deact: Result<seq<string>>): Result<map<string, string>> {
    var a :- act;
    var d :- deact;
    Ok(files[activatePath := ActivationFile(a)][deactivatePath := ActivationFile(d)])
  }

  /** `issueExec`, up to the script body; running it is not modelled. */
  method IssueExec(pm: Manager.ProjectManager, w: World.World, cmd: string) returns (r: Result<string>)
    modifies pm
    ensures pm.Current() == WithExec(old(pm.Current()), cmd)
    ensures r == ExecScript(pm.Activation(w), pm.Deactivation(w))
  {
    pm.AppendModules([ExecModule(cmd)]);
    assert Manager.Names([ExecModule(cmd)]) == [ExecModuleName];
    r := ScriptOf(pm, w);
  }

  /** The script of `issueExec` for the manager as it stands: both line lists, activation first. */
  method ScriptOf(pm: Manager.ProjectManager, w: World.World) returns (r: Result<string>)
    ensures r == ExecScript(pm.Activation(w), pm.Deactivation(w))
  {
    var act := pm.ShellActivateCommands(w);
    if act.Err? {
      return Err(act.msg);
    }
    var deact := pm.ShellDeactivateCommands(w);
    if deact.Err? {
      return Err(deact.msg);
    }
    r := Ok(ScriptBody(act.value, deact.value));
  }

  /** `issueActivate`: both line lists, then both files. */
  method IssueActivate(pm: Manager.ProjectManager, w: World.World, activatePath: string, deactivatePath: string)
      returns (r: Result<map<string, string>>)
    ensures r == ActivationFiles(w.files, activatePath, deactivatePath, pm.Activation(w), pm.Deactivation(w))
  {
    var act := pm.ShellActivateCommands(w);
    if act.Err? {
      return Err(act.msg);
    }
    var deact := pm.ShellDeactivateCommands(w);
    if deact.Err? {
      return Err(deact.msg);
    }
    var files := w.files[activatePath := ActivationFile(act.value)];
    r := Ok(files[deactivatePath := ActivationFile(deact.value)]);
  }

  // ---------------------------------------------------------------- the commands' actions

  /** What running a command leaves behind. */
  datatype Outcome =
    | Wrote(files: map<string, string>)
    | Ran(script: string)
    | Failed(msg: string)

  function Written(r: Result<map<string, string>>): Outcome {
    match r case Ok(files) => Wrote(files) case Err(e) => Failed(e)
  }

  function Executed(r: Result<string>): Outcome {
    match r case Ok(s) => Ran(s) case Err(e) => Failed(e)
  }

  const ShellSupportMessage: string := "please add `" + EvalHelperCommand + "` to your .bashrc/.zshrc to enable shell support"

  /** The setting after `PrependModules(defaultPS1Module, defaultJumpModule)`, unless the project disables built-ins. */
  function WithBuiltins(st: Manager.Setting): Manager.Setting {
    if st.project.disableBuiltinModules then st
    else st.(project := st.project.(modules := [DefaultPS1Module.name, DefaultJumpModule.name] + st.project.modules),
             related := Manager.Register(st.related, [DefaultJumpModule, DefaultPS1Module]))
  }

  /** Unless disabled, the built-ins come first, the prompt before the jump, each bound to its own declaration. */
  lemma BuiltinsFirst(st: Manager.Setting)
    requires !st.project.disableBuiltinModules
    ensures WithBuiltins(st).project.modules[..2] == ["ps1_builtin", "jump_builtin"]
    ensures WithBuiltins(st).project.modules[2..] == st.project.modules
    ensures WithBuiltins(st).related == st.related["jump_builtin" := DefaultJumpModule]["ps1_builtin" := DefaultPS1Module]
  {
    var ms := [DefaultJumpModule, DefaultPS1Module];
    assert ms[..1] == [DefaultJumpModule];
    assert ms[..1][..0] == [];
    assert Manager.Register(st.related, []) == st.related;
    assert Manager.Register(st.related, ms[..1]) == st.related["jump_builtin" := DefaultJumpModule];
    assert Manager.Register(st.related, ms) == st.related["jump_builtin" := DefaultJumpModule]["ps1_builtin" := DefaultPS1Module];
  }

  /** The built-in prepend of `makeActivationCommand`. */
  method PrependBuiltins(pm: Manager.ProjectManager)
    modifies pm
    ensures pm.Current() == WithBuiltins(old(pm.Current()))
  {
    if !pm.project.disableBuiltinModules {
      pm.PrependModules([DefaultPS1Module, DefaultJumpModule]);
      assert Manager.Names([DefaultPS1Module, DefaultJumpModule]) == ["ps1_builtin", "jump_builtin"];
      assert Manager.Reverse([DefaultPS1Module, DefaultJumpModule]) == [DefaultJumpModule, DefaultPS1Module];
    }
  }

  /**
   * The activation command: the built-ins go first; then without arguments the
   * activation files are written (the shell helper must have passed both paths), and
   * with arguments they are run, space-joined, as one command.
   */
  method RunActivation(pm: Manager.ProjectManager, w: World.World, args: seq<string>) returns (o: Outcome)
    modifies pm
    ensures |args| == 0 ==> pm.Current() == WithBuiltins(old(pm.Current()))
    ensures |args| == 0 && !EvalPaths(w).bothSet ==> o == Failed(ShellSupportMessage)
    ensures |args| == 0 && EvalPaths(w).bothSet ==>
              o == Written(ActivationFiles(w.files, EvalPaths(w).activate, EvalPaths(w).deactivate,
                                           pm.Activation(w), pm.Deactivation(w)))
    ensures |args| > 0 ==> pm.Current() == WithExec(WithBuiltins(old(pm.Current())), Strs.Join(args, " "))
    ensures |args| > 0 ==> o == Executed(ExecScript(pm.Activation(w), pm.Deactivation(w)))
  {
    PrependBuiltins(pm);
    if |args| == 0 {
      var paths := EvalPaths(w);
      if paths.bothSet {
        var files := IssueActivate(pm, w, paths.activate, paths.deactivate);
        o := Written(files);
      } else {
        o := Failed(ShellSupportMessage);
      }
    } else {
      var script := IssueExec(pm, w, Strs.Join(args, " "));
      o := Executed(script);
    }
  }

  /** `makeScriptCommand`'s command: prefix and path unless the prefix is exactly " ", then the arguments. */
  function ScriptCommandLine(script: Loader.FoundScript, args: seq<string>): string {
    var toExec := if script.execPrefix != " " then script.execPrefix + " " + script.filePath else script.filePath;
    if |args| > 0 then toExec + " " + Strs.Join(args, " ") else toExec
  }

  /** For any prefix but " ", the command is the prefix, the path and the arguments, space-joined. */
  lemma ScriptCommandWords(script: Loader.FoundScript, args: seq<string>)
    requires script.execPrefix != " "
    ensures ScriptCommandLine(script, args) == Strs.Join([script.execPrefix, script.filePath] + args, " ")
  {
    var head := [script.execPrefix, script.filePath];
    assert head[1..] == [script.filePath];
    if |args| > 0 {
      Strs.JoinAppend(head, args, " ");
    } else {
      assert head + args == head;
    }
  }

  /**
   * Every script the loader extracts takes the prefix branch, so an executable script,
   * whose prefix is "", is run as `" " + path`: the test against " " never fails.
   */
  lemma ExtractedScriptCommand(w: World.World, path: string, f: World.FileInfo, args: seq<string>)
    requires Loader.Extracted(w, path, f).Ok?
    ensures var s := Loader.Extracted(w, path, f).value;
            ScriptCommandLine(s, args) == Strs.Join([s.execPrefix, s.filePath] + args, " ")
    ensures World.Executable(f) ==> var s := Loader.Extracted(w, path, f).value;
            ScriptCommandLine(s, args) == " " + Strs.Join([s.filePath] + args, " ")
  {
    var s := Loader.Extracted(w, path, f).value;
    Loader.ExtractedPrefix(w, path, f);
    assert s.execPrefix != " " by {
      if s.execPrefix != "" {
        assert s.execPrefix[..13] == "/usr/bin/env ";
      }
    }
    ScriptCommandWords(s, args);
    if World.Executable(f) {
      var words := [s.execPrefix, s.filePath] + args;
      assert words == [""] + ([s.filePath] + args);
      Strs.JoinAppend([""], [s.filePath] + args, " ");
    }
  }

  /** A script command: the project's script, with the arguments, run as one exec command. */
  method RunScript(pm: Manager.ProjectManager, w: World.World, script: Loader.FoundScript, args: seq<string>)
      returns (o: Outcome)
    modifies pm
    ensures pm.Current() == WithExec(old(pm.Current()), ScriptCommandLine(script, args))
    ensures o == Executed(ExecScript(pm.Activation(w), pm.Deactivation(w)))
  {
    var toExec := script.filePath;
    if script.execPrefix != " " {
      toExec := script.execPrefix + " " + toExec;
    }
    if |args| > 0 {
      toExec := toExec + " " + Strs.Join(args, " ");
    }
    var r := IssueExec(pm, w, toExec);
    o := Executed(r);
  }

  // ---------------------------------------------------------------- the commands of the discovered configurations

  /** A discovered configuration as `LoadConfigCommands` sees it: its path, storage directory, `Config()` and `Scripts()`. */
  datatype Entry = Entry(path: string, storageDir: string, config: Option<Venvy.Config>, scripts: Option<Loader.ScriptMap>)

  /** What a command's project manager is built from: the project, its bound modules, the configuration path and the project's storage. */
  datatype Target = Target(project: Venvy.Project, related: map<string, Venvy.Module>, configPath: string, storageDir: string)

  datatype Action = ActivateProject | RunScriptFile(script: Loader.FoundScript)

  /** A sub-command: its name (`Use`), its help line (`Short`), and what it runs. */
  datatype Command = Command(use: string, short: string, target: Target, action: Action)

  /** The commands so far and `seenProjects`: each project name with the configuration that declared it first. */
  datatype State = State(cmds: seq<Command>, seen: map<string, string>)

  /** `configF.Scripts()[project.Name]`: no scripts when there is no map or no entry. */
  function ScriptsFor(e: Entry, name: string): seq<Loader.FoundScript> {
    match e.scripts case None => [] case Some(m) => Loader.ScriptsOf(m, name)
  }

  function ScriptCommand(t: Target, name: string, script: Loader.FoundScript): Command {
    Command(name + "." + script.subCommand, script.docstring, t, RunScriptFile(script))
  }

  function ScriptCommands(t: Target, name: string, scripts: seq<Loader.FoundScript>): (r: seq<Command>)
    ensures |r| == |scripts|
  {
    seq(|scripts|, i requires 0 <= i < |scripts| => ScriptCommand(t, name, scripts[i]))
  }

  /**
   * The commands of a newly seen project: its activation command, then one per script;
   * or the error of building its project manager (on which the program exits).
   */
  function ProjectCommands(e: Entry, c: Venvy.Config, name: string): Result<seq<Command>> {
    match ConfigManagers.LastProject(c.projects, name)
    case None => Err("project " + name + " not found in config")
    case Some(p) =>
      var related :- ConfigManagers.Related(p.modules, c.modules, name);
      var t := Target(p, related, e.path, DataManagers.StoragePath(e.storageDir, [name]));
      Ok([Command(name, "Activate environment " + name, t, ActivateProject)] + ScriptCommands(t, name, ScriptsFor(e, name)))
  }

  /** The project loop over one configuration: a name seen before is skipped. */
  function AddProjects(st: State, e: Entry, c: Venvy.Config, ps: seq<Venvy.Project>): Result<State>
    decreases |ps|
  {
    if |ps| == 0 then Ok(st)
    else
      var st1 :- AddProjects(st, e, c, ps[..|ps| - 1]);
      AddProject(st1, e, c, ps[|ps| - 1].name)
  }

  /** One project of the loop: skipped when seen, otherwise recorded as this configuration's and its commands added. */
  function AddProject(st: State, e: Entry, c: Venvy.Config, name: string): Result<State> {
    if name in st.seen then Ok(st)
    else
      var cmds :- ProjectCommands(e, c, name);
      Ok(State(st.cmds + cmds, st.seen[name := e.path]))
  }

  /** One configuration: none is skipped; otherwise its config manager must come up, then its projects are added. */
  function AddEntry(st: State, e: Entry): Result<State> {
    match e.config
    case None => Ok(st)
    case Some(c) =>
      if !Paths.IsAbs(e.storageDir) then Err("storage dir " + e.storageDir + " not an absolute path")
      else AddProjects(st, e, c, c.projects)
  }

  /** `LoadConfigCommands` over the configurations in discovery order. */
  function Commands(entries: seq<Entry>): Result<State> {
    if |entries| == 0 then Ok(State([], map[]))
    else
      var st :- Commands(entries[..|entries| - 1]);
      AddEntry(st, entries[|entries| - 1])
  }

  /** One more project of the loop; a failing one is the loop's failure. */
  lemma AddProjectsStep(st: State, e: Entry, c: Venvy.Config, ps: seq<Venvy.Project>, j: nat, s: State)
    requires j < |ps| && AddProjects(st, e, c, ps[..j]) == Ok(s)
    ensures AddProjects(st, e, c, ps[..j + 1]) == AddProject(s, e, c, ps[j].name)
    ensures AddProject(s, e, c, ps[j].name).Err? ==> AddProjects(st, e, c, ps) == AddProject(s, e, c, ps[j].name)
  {
    assert ps[..j + 1][..j] == ps[..j];
    if AddProject(s, e, c, ps[j].name).Err? {
      AddProjectsErrorSticks(st, e, c, ps, j + 1);
    }
  }

  lemma {:induction false} AddProjectsErrorSticks(st: State, e: Entry, c: Venvy.Config, ps: seq<Venvy.Project>, k: nat)
    requires k <= |ps| && AddProjects(st, e, c, ps[..k]).Err?
    ensures AddProjects(st, e, c, ps) == AddProjects(st, e, c, ps[..k])
    decreases |ps| - k
  {
    if k == |ps| {
      assert ps[..k] == ps;
    } else {
      assert ps[..k + 1][..k] == ps[..k];
      AddProjectsErrorSticks(st, e, c, ps, k + 1);
    }
  }

  lemma {:induction false} CommandsErrorSticks(entries: seq<Entry>, k: nat)
    requires k <= |entries| && Commands(entries[..k]).Err?
    ensures Commands(entries) == Commands(entries[..k])
    decreases |entries| - k
  {
    if k == |entries| {
      assert entries[..k] == entries;
    } else {
      assert entries[..k + 1][..k] == entries[..k];
      CommandsErrorSticks(entries, k + 1);
    }
  }

  /** The script loop of one project: a sub-command per script, in order. */
  method AppendScripts(cmds: seq<Command>, t: Target, name: string, scripts: seq<Loader.FoundScript>)
      returns (cmds': seq<Command>)
    ensures cmds' == cmds + ScriptCommands(t, name, scripts)
  {
    cmds' := cmds;
    for k := 0 to |scripts|
      invariant cmds' == cmds + ScriptCommands(t, name, scripts)[..k]
    {
      assert ScriptCommands(t, name, scripts)[..k + 1] == ScriptCommands(t, name, scripts)[..k] + [ScriptCommand(t, name, scripts[k])];
      cmds' := cmds' + [ScriptCommand(t, name, scripts[k])];
    }
    assert ScriptCommands(t, name, scripts)[..|scripts|] == ScriptCommands(t, name, scripts);
  }

  /** The project loop of one configuration, with the project manager built for each new name. */
  method VisitProjects(st: State, e: Entry, c: Venvy.Config) returns (r: Result<State>)
    ensures r == AddProjects(st, e, c, c.projects)
  {
    var cmds := st.cmds;
    var seenProjects := st.seen;
    var projects := c.projects;
    for j := 0 to |projects|
      invariant AddProjects(st, e, c, projects[..j]) == Ok(State(cmds, seenProjects))
    {
      var name := projects[j].name;
      var next := VisitProject(State(cmds, seenProjects), e, c, name);
      AddProjectsStep(st, e, c, projects, j, State(cmds, seenProjects));
      if next.Err? {
        return Err(next.msg);
      }
      cmds, seenProjects := next.value.cmds, next.value.seen;
    }
    assert projects[..|projects|] == projects;
    r := Ok(State(cmds, seenProjects));
  }

  /** The body of the project loop for a name not seen before: build its project manager, add its commands. */
  method VisitProject(st: State, e: Entry, c: Venvy.Config, name: string) returns (r: Result<State>)
    ensures r == AddProject(st, e, c, name)
  {
    if name in st.seen {
      return Ok(st);
    }
    var seenProjects := st.seen[name := e.path];
    var cmds := CommandsOf(e, c, name);
    if cmds.Err? {
      return Err(cmds.msg);
    }
    r := Ok(State(st.cmds + cmds.value, seenProjects));
  }

  /** The commands of one project: its project manager, then the activate command and one per script. */
  method CommandsOf(e: Entry, c: Venvy.Config, name: string) returns (r: Result<seq<Command>>)
    ensures r == ProjectCommands(e, c, name)
  {
    var project := ConfigManagers.FindProject(c.projects, name);
    if project.None? {
      return Err("project " + name + " not found in config");
    }
    var related := ConfigManagers.BindModules(project.value.modules, c.modules, name);
    if related.Err? {
      return Err(related.msg);
    }
    var t := Target(project.value, related.value, e.path, DataManagers.StoragePath(e.storageDir, [name]));
    var activate := Command(name, "Activate environment " + name, t, ActivateProject);
    var cmds := AppendScripts([activate], t, name, ScriptsFor(e, name));
    r := Ok(cmds);
  }

  /**
   * `LoadConfigCommands`, given each discovered configuration's `Config()` and `Scripts()`:
   * the commands in order, or the first error.
   */
  method LoadConfigCommands(entries: seq<Entry>) returns (r: Result<seq<Command>>)
    ensures r == match Commands(entries) case Err(e) => Err(e) case Ok(st) => Ok(st.cmds)
  {
    var st := State([], map[]);
    for i := 0 to |entries|
      invariant Commands(entries[..i]) == Ok(st)
    {
      assert entries[..i + 1][..i] == entries[..i];
      var e := entries[i];
      if e.config.None? {
        continue;
      }
      if !Paths.IsAbs(e.storageDir) {
        CommandsErrorSticks(entries, i + 1);
        return Err("storage dir " + e.storageDir + " not an absolute path");
      }
      var next := VisitProjects(st, e, e.config.value);
      if next.Err? {
        CommandsErrorSticks(entries, i + 1);
        return Err(next.msg);
      }
      st := next.value;
    }
    assert entries[..|entries|] == entries;
    r := Ok(st.cmds);
  }

  // ---------------------------------------------------------------- first declaration wins

  /** The configuration, once read, declares a project with the name. */
  predicate Declares(e: Entry, name: string) {
    e.config.Some? && exists j :: 0 <= j < |e.config.value.projects| && e.config.value.projects[j].name == name
  }

  /** The project loop records every name of the configuration not seen before, as this configuration's. */
  lemma {:induction false} AddProjectsSeen(st: State, e: Entry, c: Venvy.Config, ps: seq<Venvy.Project>)
    requires AddProjects(st, e, c, ps).Ok?
    ensures forall n :: n in AddProjects(st, e, c, ps).value.seen <==>
                          n in st.seen || exists j :: 0 <= j < |ps| && ps[j].name == n
    ensures forall n :: n in AddProjects(st, e, c, ps).value.seen ==>
                          AddProjects(st, e, c, ps).value.seen[n] == if n in st.seen then st.seen[n] else e.path
    decreases |ps|
  {
    if |ps| > 0 {
      var init := ps[..|ps| - 1];
      AddProjectsSeen(st, e, c, init);
      assert forall j :: 0 <= j < |init| ==> init[j] == ps[j];
    }
  }

  /** One configuration adds the names it declares that are new, mapped to its own path, and keeps the others. */
  lemma AddEntrySeen(st: State, e: Entry)
    requires AddEntry(st, e).Ok?
    ensures forall n :: n in AddEntry(st, e).value.seen <==> n in st.seen || Declares(e, n)
    ensures forall n :: n in AddEntry(st, e).value.seen ==>
                          AddEntry(st, e).value.seen[n] == if n in st.seen then st.seen[n] else e.path
  {
    if e.config.Some? {
      AddProjectsSeen(st, e, e.config.value, e.config.value.projects);
    }
  }

  /** `seenProjects` holds exactly the names some configuration declares. */
  lemma {:induction false} SeenDeclared(entries: seq<Entry>)
    requires Commands(entries).Ok?
    ensures forall n :: n in Commands(entries).value.seen <==> exists i :: 0 <= i < |entries| && Declares(entries[i], n)
    decreases |entries|
  {
    if |entries| > 0 {
      var m := |entries| - 1;
      var init := entries[..m];
      SeenDeclared(init);
      AddEntrySeen(Commands(init).value, entries[m]);
      assert forall i :: 0 <= i < m ==> init[i] == entries[i];
      forall n | exists i :: 0 <= i < |entries| && Declares(entries[i], n)
        ensures Declares(entries[m], n) || exists i :: 0 <= i < |init| && Declares(init[i], n)
      {
        var i :| 0 <= i < |entries| && Declares(entries[i], n);
        if i < m {
          assert Declares(init[i], n);
        }
      }
    }
  }

  /** The name maps to the path of the first configuration (in discovery order) that declares it. */
  lemma {:induction false} SeenFirst(entries: seq<Entry>, i: nat, name: string)
    requires Commands(entries).Ok?
    requires i < |entries| && Declares(entries[i], name)
    requires forall k :: 0 <= k < i ==> !Declares(entries[k], name)
    ensures name in Commands(entries).value.seen
    ensures Commands(entries).value.seen[name] == entries[i].path
    decreases |entries|
  {
    var m := |entries| - 1;
    var init := entries[..m];
    assert forall k :: 0 <= k < m ==> init[k] == entries[k];
    var st := Commands(init).value;
    AddEntrySeen(st, entries[m]);
    if i < m {
      SeenFirst(init, i, name);
    } else {
      SeenDeclared(init);
      assert forall k :: 0 <= k < |init| ==> !Declares(init[k], name);
    }
  }

  /** Each activation command is named after its project and carries the path recorded for that name. */
  predicate ActivationsTracked(st: State) {
    forall a :: 0 <= a < |st.cmds| && st.cmds[a].action.ActivateProject? ==>
      st.cmds[a].use == st.cmds[a].target.project.name
      && st.cmds[a].use in st.seen && st.seen[st.cmds[a].use] == st.cmds[a].target.configPath
  }

  /** No two activation commands share a name. */
  predicate ActivationsDistinct(st: State) {
    forall a, b :: 0 <= a < b < |st.cmds| && st.cmds[a].action.ActivateProject? && st.cmds[b].action.ActivateProject?
                   ==> st.cmds[a].use != st.cmds[b].use
  }

  /** Every recorded name has an activation command. */
  predicate SeenActivated(st: State) {
    forall n :: n in st.seen ==> exists a :: 0 <= a < |st.cmds| && st.cmds[a].action.ActivateProject? && st.cmds[a].use == n
  }

  /** A script command is named `<project>.<sub-command>` and runs with the manager of an earlier activation command. */
  predicate ScriptsFollow(st: State) {
    forall a :: 0 <= a < |st.cmds| && st.cmds[a].action.RunScriptFile? ==>
      st.cmds[a].use == st.cmds[a].target.project.name + "." + st.cmds[a].action.script.subCommand
      && exists b :: 0 <= b < a && st.cmds[b].action.ActivateProject? && st.cmds[b].target == st.cmds[a].target
  }

  predicate Tracks(st: State) {
    ActivationsTracked(st) && ActivationsDistinct(st) && SeenActivated(st) && ScriptsFollow(st)
  }

  /** A project's commands: its activation command first, then its script commands, all on one target named after it. */
  lemma ProjectCommandsShape(e: Entry, c: Venvy.Config, name: string)
    requires ProjectCommands(e, c, name).Ok?
    ensures var r := ProjectCommands(e, c, name).value;
            |r| >= 1 && r[0].action.ActivateProject? && r[0].use == name
            && r[0].target.project.name == name && r[0].target.configPath == e.path
            && forall k :: 1 <= k < |r| ==>
                 (r[k].action.RunScriptFile? && r[k].target == r[0].target
                  && r[k].use == name + "." + r[k].action.script.subCommand)
  {
  }

  /** Adding one project keeps the command list in step with `seenProjects`. */
  lemma AddProjectTracks(st: State, e: Entry, c: Venvy.Config, name: string)
    requires Tracks(st) && AddProject(st, e, c, name).Ok?
    ensures Tracks(AddProject(st, e, c, name).value)
  {
    if name !in st.seen {
      ProjectCommandsShape(e, c, name);
      var r := ProjectCommands(e, c, name).value;
      var st' := AddProject(st, e, c, name).value;
      assert st' == State(st.cmds + r, st.seen[name := e.path]);
      AppendTracked(st, r, name, e.path);
      AppendDistinct(st, r, name, e.path);
      AppendActivated(st, r, name, e.path);
      AppendFollow(st, r, name, e.path);
    }
  }

  /** The shape `ProjectCommandsShape` gives, for a project new to the state. */
  predicate Fresh(st: State, r: seq<Command>, name: string, path: string) {
    name !in st.seen
    && |r| >= 1 && r[0].action.ActivateProject? && r[0].use == name
    && r[0].target.project.name == name && r[0].target.configPath == path
    && forall k :: 1 <= k < |r| ==>
         (r[k].action.RunScriptFile? && r[k].target == r[0].target
          && r[k].use == r[k].target.project.name + "." + r[k].action.script.subCommand)
  }

  lemma AppendTracked(st: State, r: seq<Command>, name: string, path: string)
    requires ActivationsTracked(st) && Fresh(st, r, name, path)
    ensures ActivationsTracked(State(st.cmds + r, st.seen[name := path]))
  {
    var st' := State(st.cmds + r, st.seen[name := path]);
    forall a | 0 <= a < |st'.cmds| && st'.cmds[a].action.ActivateProject?
      ensures st'.cmds[a].use == st'.cmds[a].target.project.name
              && st'.cmds[a].use in st'.seen && st'.seen[st'.cmds[a].use] == st'.cmds[a].target.configPath
    {
      if a < |st.cmds| {
        assert st'.cmds[a] == st.cmds[a];
      } else {
        assert st'.cmds[a] == r[a - |st.cmds|];
      }
    }
  }

  lemma AppendDistinct(st: State, r: seq<Command>, name: string, path: string)
    requires ActivationsTracked(st) && ActivationsDistinct(st) && Fresh(st, r, name, path)
    ensures ActivationsDistinct(State(st.cmds + r, st.seen[name := path]))
  {
    var st' := State(st.cmds + r, st.seen[name := path]);
    forall a, b | 0 <= a < b < |st'.cmds| && st'.cmds[a].action.ActivateProject? && st'.cmds[b].action.ActivateProject?
      ensures st'.cmds[a].use != st'.cmds[b].use
    {
      if b < |st.cmds| {
        assert st'.cmds[a] == st.cmds[a] && st'.cmds[b] == st.cmds[b];
      } else {
        assert st'.cmds[b] == r[b - |st.cmds|];
        assert b == |st.cmds|;
        assert st'.cmds[a] == st.cmds[a];
      }
    }
  }

  lemma AppendActivated(st: State, r: seq<Command>, name: string, path: string)
    requires SeenActivated(st) && Fresh(st, r, name, path)
    ensures SeenActivated(State(st.cmds + r, st.seen[name := path]))
  {
    var st' := State(st.cmds + r, st.seen[name := path]);
    forall n | n in st'.seen
      ensures exists a :: 0 <= a < |st'.cmds| && st'.cmds[a].action.ActivateProject? && st'.cmds[a].use == n
    {
      if n == name {
        assert st'.cmds[|st.cmds|] == r[0];
      } else {
        var a :| 0 <= a < |st.cmds| && st.cmds[a].action.ActivateProject? && st.cmds[a].use == n;
        assert st'.cmds[a] == st.cmds[a];
      }
    }
  }

  lemma AppendFollow(st: State, r: seq<Command>, name: string, path: string)
    requires ScriptsFollow(st) && Fresh(st, r, name, path)
    ensures ScriptsFollow(State(st.cmds + r, st.seen[name := path]))
  {
    var st' := State(st.cmds + r, st.seen[name := path]);
    forall a | 0 <= a < |st'.cmds| && st'.cmds[a].action.RunScriptFile?
      ensures st'.cmds[a].use == st'.cmds[a].target.project.name + "." + st'.cmds[a].action.script.subCommand
              && exists b :: 0 <= b < a && st'.cmds[b].action.ActivateProject? && st'.cmds[b].target == st'.cmds[a].target
    {
      if a < |st.cmds| {
        var b :| 0 <= b < a && st.cmds[b].action.ActivateProject? && st.cmds[b].target == st.cmds[a].target;
        assert st'.cmds[a] == st.cmds[a] && st'.cmds[b] == st.cmds[b];
      } else {
        assert st'.cmds[a] == r[a - |st.cmds|];
        assert st'.cmds[|st.cmds|] == r[0];
      }
    }
  }

  lemma {:induction false} AddProjectsTracks(st: State, e: Entry, c: Venvy.Config, ps: seq<Venvy.Project>)
    requires Tracks(st) && AddProjects(st, e, c, ps).Ok?
    ensures Tracks(AddProjects(st, e, c, ps).value)
    decreases |ps|
  {
    if |ps| > 0 {
      AddProjectsTracks(st, e, c, ps[..|ps| - 1]);
      AddProjectTracks(AddProjects(st, e, c, ps[..|ps| - 1]).value, e, c, ps[|ps| - 1].name);
    }
  }

  lemma {:induction false} CommandsTrack(entries: seq<Entry>)
    requires Commands(entries).Ok?
    ensures Tracks(Commands(entries).value)
    decreases |entries|
  {
    if |entries| > 0 {
      var init := entries[..|entries| - 1];
      var e := entries[|entries| - 1];
      CommandsTrack(init);
      if e.config.Some? {
        AddProjectsTracks(Commands(init).value, e, e.config.value, e.config.value.projects);
      }
    }
  }

  /**
   * The first configuration declaring a project name wins: the name gets exactly one
   * activation command, built from that configuration; later declarations are skipped.
   */
  lemma FirstConfigWins(entries: seq<Entry>, i: nat, name: string)
    requires Commands(entries).Ok?
    requires i < |entries| && Declares(entries[i], name)
    requires forall k :: 0 <= k < i ==> !Declares(entries[k], name)
    ensures var cmds := Commands(entries).value.cmds;
            exists a :: 0 <= a < |cmds| && cmds[a].action.ActivateProject? && cmds[a].use == name
                        && cmds[a].target.configPath == entries[i].path
                        && forall b :: 0 <= b < |cmds| && cmds[b].action.ActivateProject? && cmds[b].use == name ==> b == a
  {
    SeenFirst(entries, i, name);
    CommandsTrack(entries);
    OnlyActivation(Commands(entries).value, name);
  }

  /** In a tracked state a recorded name has exactly one activation command, with the recorded path. */
  lemma OnlyActivation(st: State, name: string)
    requires Tracks(st) && name in st.seen
    ensures exists a :: 0 <= a < |st.cmds| && st.cmds[a].action.ActivateProject? && st.cmds[a].use == name
                        && st.cmds[a].target.configPath == st.seen[name]
                        && forall b :: 0 <= b < |st.cmds| && st.cmds[b].action.ActivateProject? && st.cmds[b].use == name ==> b == a
  {
    var a :| 0 <= a < |st.cmds| && st.cmds[a].action.ActivateProject? && st.cmds[a].use == name;
    forall b | 0 <= b < |st.cmds| && st.cmds[b].action.ActivateProject? && st.cmds[b].use == name
      ensures b == a
    {
      SameUse(st, a, b);
    }
  }

  /** Two activation commands of a state with distinct activations that share a name are one. */
  lemma SameUse(st: State, a: nat, b: nat)
    requires ActivationsDistinct(st)
    requires a < |st.cmds| && st.cmds[a].action.ActivateProject?
    requires b < |st.cmds| && st.cmds[b].action.ActivateProject?
    requires st.cmds[a].use == st.cmds[b].use
    ensures a == b
  {
  }

  /** Every activation command is for a project some configuration declares. */
  lemma ActivationsDeclared(entries: seq<Entry>)
    requires Commands(entries).Ok?
    ensures var cmds := Commands(entries).value.cmds;
            forall a :: 0 <= a < |cmds| && cmds[a].action.ActivateProject? ==>
              exists i :: 0 <= i < |entries| && Declares(entries[i], cmds[a].use)
  {
    SeenDeclared(entries);
    CommandsTrack(entries);
  }
}
