/**
 * modules/modules.go with the `Moduler` interface and `ModuleMakerTypeMap` of
 * venvy/venvy.go: the closed set of capability units, the registry from type tag to
 * constructor, and the two operations every unit offers.
 */
module Registry {
  import opened Wrappers
  import World
  import Venvy
  import ProjectPaths
  import Python
  import Jump
  import PS1
  import Debug
  import Exec
  import EnvVar
  import Tmux

  /** The constructors a type tag can name. */
  datatype Maker = MakePython | MakeJump | MakePS1 | MakeDebug | MakeExec | MakeEnv | MakeTmux

  /** A constructed unit (`Moduler`). */
  datatype Moduler =
    | PythonUnit(python: Python.Unit)
    | JumpUnit(jump: Jump.Unit)
    | PS1Unit(ps1: PS1.Unit)
    | DebugUnit(debug: Debug.Unit)
    | ExecUnit(exec: Exec.Unit)
    | EnvUnit(env: EnvVar.Unit)
    | TmuxUnit(tmux: Tmux.Unit)

  /** `DefaultModuleMakers`. */
  const DefaultModuleMakers: map<string, Maker> := map[
    "python" := MakePython,
    "jump" := MakeJump,
    "ps1" := MakePS1,
    "debug" := MakeDebug,
    "exec" := MakeExec,
    "env" := MakeEnv,
    "tmux-window" := MakeTmux]

  /** The registry knows exactly seven tags, each naming its own constructor. */
  lemma DefaultTags()
    ensures DefaultModuleMakers.Keys == {"python", "jump", "ps1", "debug", "exec", "env", "tmux-window"}
    ensures DefaultModuleMakers["python"] == MakePython && DefaultModuleMakers["jump"] == MakeJump
    ensures DefaultModuleMakers["ps1"] == MakePS1 && DefaultModuleMakers["debug"] == MakeDebug
    ensures DefaultModuleMakers["exec"] == MakeExec && DefaultModuleMakers["env"] == MakeEnv
    ensures DefaultModuleMakers["tmux-window"] == MakeTmux
  {
  }

  /**
   * Calling a constructor (`ModuleMaker`) with the project manager (`ctx`, and the world it
   * reads) and the module declaration.
   */
  function Make(maker: Maker, ctx: ProjectPaths.Ctx, w: World.World, m: Venvy.Module): Result<Moduler> {
    match maker
    case MakePython => var u :- Python.New(ctx, m.name, m.config); Ok(PythonUnit(u))
    case MakeJump => var u :- Jump.New(ctx, w, m.config); Ok(JumpUnit(u))
    case MakePS1 => var u :- PS1.New(ctx.projectName, m.config); Ok(PS1Unit(u))
    case MakeDebug => Ok(DebugUnit(Debug.New(m.config).value))
    case MakeExec => var u :- Exec.New(m.config); Ok(ExecUnit(u))
    case MakeEnv => var u :- EnvVar.New(ctx, m.config); Ok(EnvUnit(u))
    case MakeTmux => var u :- Tmux.New(ctx, m.config); Ok(TmuxUnit(u))
  }

  /** What the constructors make of a declaration without a `config`, and that debug always succeeds. */
  lemma MakeDefaults(maker: Maker, ctx: ProjectPaths.Ctx, w: World.World, m: Venvy.Module)
    ensures maker == MakeDebug ==> Make(maker, ctx, w, m) == Ok(DebugUnit(Debug.Unit))
    ensures maker == MakePython && m.config.Absent? ==> Make(maker, ctx, w, m).Ok? && Make(maker, ctx, w, m).value.PythonUnit?
    ensures maker == MakeExec && m.config.Absent? ==> Make(maker, ctx, w, m) == Ok(ExecUnit(Exec.Unit(Exec.Config([], []))))
    ensures maker == MakeTmux && m.config.Absent? ==> Make(maker, ctx, w, m).Err?
  {
    match maker
    case MakeDebug =>
    case MakePython =>
    case MakeExec =>
    case MakeTmux =>
    case _ =>
  }

  /** `ShellActivateCommands` of the unit. */
  function Activate(u: Moduler, w: World.World): Result<seq<string>> {
    match u
    case PythonUnit(p) => Python.Activation(p, w)
    case JumpUnit(j) => Ok(Jump.Activation(j))
    case PS1Unit(p) => Ok(PS1.Activation(p))
    case DebugUnit(d) => Ok(Debug.Activation(d))
    case ExecUnit(e) => Ok(Exec.Activation(e))
    case EnvUnit(e) => EnvVar.Rendered(EnvVar.Activation(e, w))
    case TmuxUnit(t) => Tmux.Activation(t, w)
  }

  /** `ShellDeactivateCommands` of the unit. */
  function Deactivate(u: Moduler, w: World.World): (r: Result<seq<string>>)
    ensures r.Ok?
  {
    match u
    case PythonUnit(p) => Ok(EnvVar.Texts(EnvVar.Deactivation(Python.VenvVars(p), w.env)))
    case JumpUnit(j) => Ok(Jump.Deactivation(j))
    case PS1Unit(p) => Ok(PS1.Deactivation(p))
    case DebugUnit(d) => Ok(Debug.Deactivation(d))
    case ExecUnit(e) => Ok(Exec.Deactivation(e))
    case EnvUnit(e) => Ok(EnvVar.Texts(EnvVar.Deactivation(e, w.env)))
    case TmuxUnit(t) => Ok([])
  }

  /** Only python, env and tmux-window units can fail to produce activation lines. */
  lemma ActivationFailures(u: Moduler, w: World.World)
    ensures Activate(u, w).Err? ==> u.PythonUnit? || u.EnvUnit? || u.TmuxUnit?
  {
  }

  /** Dispatch to the unit's own activation. */
  method ShellActivateCommands(u: Moduler, w: World.World) returns (r: Result<seq<string>>)
    ensures r == Activate(u, w)
  {
    match u
    case PythonUnit(p) => r := Python.ShellActivateCommands(p, w);
    case JumpUnit(j) => r := Ok(Jump.Activation(j));
    case PS1Unit(p) => r := Ok(PS1.Activation(p));
    case DebugUnit(d) => r := Ok(Debug.Activation(d));
    case ExecUnit(e) => r := Ok(Exec.Activation(e));
    case EnvUnit(e) => r := EnvVar.ShellActivateCommands(e, w);
    case TmuxUnit(t) => r := Tmux.ShellActivateCommands(t, w);
  }

  /** Dispatch to the unit's own deactivation. */
  method ShellDeactivateCommands(u: Moduler, w: World.World) returns (r: Result<seq<string>>)
    ensures r == Deactivate(u, w)
  {
    match u
    case PythonUnit(p) => var lines := Python.ShellDeactivateCommands(p, w); r := Ok(lines);
    case JumpUnit(j) => r := Ok(Jump.Deactivation(j));
    case PS1Unit(p) => r := Ok(PS1.Deactivation(p));
    case DebugUnit(d) => r := Ok(Debug.Deactivation(d));
    case ExecUnit(e) => r := Ok(Exec.Deactivation(e));
    case EnvUnit(e) => var lines := EnvVar.ShellDeactivateCommands(e, w); r := Ok(lines);
    case TmuxUnit(t) => var lines := Tmux.ShellDeactivateCommands(t); r := Ok(lines);
  }
}
