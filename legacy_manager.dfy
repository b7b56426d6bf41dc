/**
 * project_manager.go and config.go of the older generation: the registry of five unit
 * types, and a project manager whose `Modulers` runs once (`sync.Once`), instantiates
 * every declaration whose name matches (repeats included), records a missing name but
 * carries on, and stops at an unknown type or a failing constructor.  Activation lines
 * are joined with `|| return $?`, deactivation lines, last unit first, with `|| return 1`.
 */
module LegacyManager {
  import opened Wrappers
  import World
  import Strs
  import Json
  import Util
  import Venvy
  import LegacyPaths
  import LegacyPython
  import LegacyPS1
  import Debug
  import Exec
  import Manager
  import ConfigManagers

  // ---------------------------------------------------------------- registry

  /** The constructors a type tag can name. */
  datatype Maker = MakePython | MakeJump | MakePS1 | MakeDebug | MakeExec

  /** `ModuleMakers`. */
  const ModuleMakers: map<string, Maker> := map[
    "python" := MakePython,
    "jump" := MakeJump,
    "ps1" := MakePS1,
    "debug" := MakeDebug,
    "exec" := MakeExec]

  /** The older registry knows five tags; "env" and "tmux-window" are not among them. */
  lemma Tags()
    ensures ModuleMakers.Keys == {"python", "jump", "ps1", "debug", "exec"}
    ensures "env" !in ModuleMakers && "tmux-window" !in ModuleMakers
    ensures ModuleMakers["python"] == MakePython && ModuleMakers["jump"] == MakeJump
    ensures ModuleMakers["ps1"] == MakePS1 && ModuleMakers["debug"] == MakeDebug
    ensures ModuleMakers["exec"] == MakeExec
  {
  }

  /** The lines a jump unit will give when asked, each of which may be an error. */
  datatype JumpLines = JumpLines(activation: Result<seq<string>>, deactivation: Result<seq<string>>)

  /** `NewJumpModule`, whose unit is described only by what its two operations return. */
  type JumpMaker = (LegacyPaths.Ctx, World.World, Venvy.Module) -> Result<JumpLines>

  /** A constructed unit (`Moduler`). */
  datatype Moduler =
    | PythonUnit(python: LegacyPython.Unit)
    | JumpUnit(jump: JumpLines)
    | PS1Unit(ps1: LegacyPS1.Unit)
    | DebugUnit(debug: Debug.Unit)
    | ExecUnit(exec: Exec.Unit)

  /** module_exec.go's `NewExecModule`: the newer decoding, with the struct named `main.ExecConfig`. */
  function NewExec(raw: Json.Raw): (r: Result<Exec.Unit>)
    ensures raw.Absent? ==> r == Ok(Exec.Unit(Exec.Config([], [])))
    ensures r.Ok? <==> Exec.New(raw).Ok?
    ensures r.Ok? ==> r == Exec.New(raw)
  {
    var ms :- Util.UnmarshalEmpty(raw, "main.ExecConfig");
    var act :- Json.GetStrings(ms, Exec.ActivationKey);
    var deact :- Json.GetStrings(ms, Exec.DeactivationKey);
    Ok(Exec.Unit(Exec.Config(act, deact)))
  }

  /** Calling a constructor with the manager's view (`ctx`, the world) and the declaration. */
  function Make(maker: Maker, ctx: LegacyPaths.Ctx, w: World.World, jump: JumpMaker, m: Venvy.Module): (r: Result<Moduler>)
    ensures maker == MakeDebug ==> r == Ok(DebugUnit(Debug.Unit))
    ensures maker == MakeExec && m.config.Absent? ==> r == Ok(ExecUnit(Exec.Unit(Exec.Config([], []))))
    ensures maker == MakePython ==> (r.Ok? <==> LegacyPython.Decode(m.config).Ok?)
    ensures maker == MakePS1 ==> (r.Ok? <==> LegacyPS1.Decode(m.config).Ok?)
  {
    match maker
    case MakePython => var u :- LegacyPython.New(ctx, m.config); Ok(PythonUnit(u))
    case MakeJump => var j :- jump(ctx, w, m); Ok(JumpUnit(j))
    case MakePS1 => var u :- LegacyPS1.New(ctx.projectName, w, m.config); Ok(PS1Unit(u))
    case MakeDebug => Ok(DebugUnit(Debug.New(m.config).value))
    case MakeExec => var u :- NewExec(m.config); Ok(ExecUnit(u))
  }

  /** `ShellActivateCommands` of the unit. */
  function Activate(u: Moduler, w: World.World): (r: Result<seq<string>>)
    ensures r.Err? ==> u.PythonUnit? || u.JumpUnit?
  {
    match u
    case PythonUnit(p) => LegacyPython.Activation(p, w)
    case JumpUnit(j) => j.activation
    case PS1Unit(p) => Ok(LegacyPS1.Activation(p))
    case DebugUnit(d) => Ok(Debug.Activation(d))
    case ExecUnit(e) => Ok(Exec.Activation(e))
  }

  /** `ShellDeactivateCommands` of the unit. */
  function Deactivate(u: Moduler): (r: Result<seq<string>>)
    ensures r.Err? ==> u.JumpUnit?
  {
    match u
    case PythonUnit(p) => Ok(LegacyPython.Deactivation(p))
    case JumpUnit(j) => j.deactivation
    case PS1Unit(p) => Ok(LegacyPS1.Deactivation(p))
    case DebugUnit(d) => Ok(Debug.Deactivation(d))
    case ExecUnit(e) => Ok(Exec.Deactivation(e))
  }

  // ---------------------------------------------------------------- resolution

  /** `NamedModuler`. */
  datatype Named = Named(name: string, unit: Moduler)

  /** What `Modulers` reads: the active project, the configuration's declarations, the units' view, the jump constructor. */
  datatype Setting = Setting(project: Venvy.Project, decls: seq<Venvy.Module>, ctx: LegacyPaths.Ctx, jump: JumpMaker)

  /** The once-function part way: the units so far and the last not-found error, or the error that ended it. */
  datatype Progress = Running(modules: seq<Named>, err: Option<string>) | Aborted(msg: string)

  /** What `Modulers` returns: `loadedModules` and `lmError`. */
  datatype Loaded = Loaded(modules: seq<Named>, err: Option<string>)

  function NotFound(name: string, projectName: string): string {
    "module " + name + " not found for project " + projectName
  }

  /** One matching declaration: its type's constructor, called. */
  function Instantiate(st: Setting, name: string, m: Venvy.Module, w: World.World): (r: Result<Named>)
    ensures m.kind !in ModuleMakers ==>
              r == Err("module " + name + " for project " + st.project.name + " has unkown type " + m.kind)
    ensures r.Ok? ==> r.value.name == name
  {
    if m.kind !in ModuleMakers then
      Err("module " + name + " for project " + st.project.name + " has unkown type " + m.kind)
    else
      match Make(ModuleMakers[m.kind], st.ctx, w, st.jump, m)
      case Err(e) => Err("module " + m.name + " for project " + st.project.name + " could not initializaed, had err " + e)
      case Ok(u) => Ok(Named(name, u))
  }

  /** The inner loop over the declarations for one name: every match instantiated, or the first failure. */
  function Scan(st: Setting, name: string, decls: seq<Venvy.Module>, w: World.World): Result<seq<Named>> {
    if |decls| == 0 then Ok([])
    else
      var init :- Scan(st, name, decls[..|decls| - 1], w);
      var m := decls[|decls| - 1];
      if m.name != name then Ok(init)
      else
        var n :- Instantiate(st, name, m, w);
        Ok(init + [n])
  }

  predicate Declared(decls: seq<Venvy.Module>, name: string) {
    exists j :: 0 <= j < |decls| && decls[j].name == name
  }

  /** How many declarations carry the name. */
  function Count(decls: seq<Venvy.Module>, name: string): (r: nat)
    ensures r <= |decls|
  {
    if |decls| == 0 then 0
    else Count(decls[..|decls| - 1], name) + (if decls[|decls| - 1].name == name then 1 else 0)
  }

  /** One pass of the outer loop. */
  function LoadOne(st: Setting, p: Progress, name: string, w: World.World): Progress {
    match p
    case Aborted(_) => p
    case Running(ms, err) =>
      match Scan(st, name, st.decls, w)
      case Err(e) => Aborted(e)
      case Ok(found) => Running(ms + found, if Declared(st.decls, name) then err else Some(NotFound(name, st.project.name)))
  }

  /** The outer loop over the project's module names. */
  function LoadAll(st: Setting, names: seq<string>, w: World.World): Progress {
    if |names| == 0 then Running([], None)
    else LoadOne(st, LoadAll(st, names[..|names| - 1], w), names[|names| - 1], w)
  }

  /** The once-function's effect: a run that ended early leaves `loadedModules` nil. */
  function Load(st: Setting, w: World.World): Loaded {
    match LoadAll(st, st.project.modules, w)
    case Aborted(e) => Loaded([], Some(e))
    case Running(ms, err) => Loaded(ms, err)
  }

  /** The unit names, in order. */
  function Labels(us: seq<Named>): (r: seq<string>)
    ensures |r| == |us|
    ensures forall i :: 0 <= i < |us| ==> r[i] == us[i].name
  {
    if |us| == 0 then [] else Labels(us[..|us| - 1]) + [us[|us| - 1].name]
  }

  /** `n` copies of `s`. */
  function Repeat(s: string, n: nat): (r: seq<string>)
    ensures |r| == n
    ensures forall i :: 0 <= i < n ==> r[i] == s
  {
    if n == 0 then [] else Repeat(s, n - 1) + [s]
  }

  /** The names of the units a run that does not end early yields: each name once per declaration carrying it. */
  function Expected(names: seq<string>, decls: seq<Venvy.Module>): seq<string> {
    if |names| == 0 then []
    else Expected(names[..|names| - 1], decls) + Repeat(names[|names| - 1], Count(decls, names[|names| - 1]))
  }

  lemma {:induction false} DeclaredCount(decls: seq<Venvy.Module>, name: string)
    ensures Declared(decls, name) <==> Count(decls, name) > 0
  {
    if |decls| > 0 {
      var init := decls[..|decls| - 1];
      DeclaredCount(init, name);
      assert forall j :: 0 <= j < |init| ==> init[j] == decls[j];
      if decls[|decls| - 1].name != name {
        assert Declared(decls, name) ==> Declared(init, name);
      }
    }
  }

  /** The inner loop yields one unit per matching declaration, each under the name asked for. */
  lemma {:induction false} ScanCounts(st: Setting, name: string, decls: seq<Venvy.Module>, w: World.World)
    requires Scan(st, name, decls, w).Ok?
    ensures Labels(Scan(st, name, decls, w).value) == Repeat(name, Count(decls, name))
  {
    if |decls| > 0 {
      ScanCounts(st, name, decls[..|decls| - 1], w);
    }
  }

  /** The inner loop fails exactly when some declaration with the name cannot be instantiated. */
  lemma {:induction false} ScanFails(st: Setting, name: string, decls: seq<Venvy.Module>, w: World.World)
    ensures Scan(st, name, decls, w).Err? <==>
              exists j :: 0 <= j < |decls| && decls[j].name == name && Instantiate(st, name, decls[j], w).Err?
  {
    if |decls| > 0 {
      var init := decls[..|decls| - 1];
      ScanFails(st, name, init, w);
      assert forall j :: 0 <= j < |init| ==> init[j] == decls[j];
    }
  }

  /** Once a prefix of the declarations fails, the whole scan fails the same way. */
  lemma {:induction false} ScanErrorSticks(st: Setting, name: string, decls: seq<Venvy.Module>, k: nat, w: World.World)
    requires k <= |decls| && Scan(st, name, decls[..k], w).Err?
    ensures Scan(st, name, decls, w) == Scan(st, name, decls[..k], w)
    decreases |decls| - k
  {
    if k == |decls| {
      assert decls[..k] == decls;
    } else {
      assert decls[..k + 1][..k] == decls[..k];
      ScanErrorSticks(st, name, decls, k + 1, w);
    }
  }

  /** Once the outer loop has ended early, the later names change nothing. */
  lemma {:induction false} AbortSticks(st: Setting, names: seq<string>, k: nat, w: World.World)
    requires k <= |names| && LoadAll(st, names[..k], w).Aborted?
    ensures LoadAll(st, names, w) == LoadAll(st, names[..k], w)
    decreases |names| - k
  {
    if k == |names| {
      assert names[..k] == names;
    } else {
      assert names[..k + 1][..k] == names[..k];
      AbortSticks(st, names, k + 1, w);
    }
  }

  /**
   * A run that does not end early yields, name by name, one unit per declaration carrying
   * the name: a repeated declaration gives repeated units, a missing one none.
   */
  lemma {:induction false} LoadedNames(st: Setting, names: seq<string>, w: World.World)
    requires LoadAll(st, names, w).Running?
    ensures Labels(LoadAll(st, names, w).modules) == Expected(names, st.decls)
  {
    if |names| > 0 {
      var init := names[..|names| - 1];
      var name := names[|names| - 1];
      LoadedNames(st, init, w);
      var p := LoadAll(st, init, w);
      var found := Scan(st, name, st.decls, w).value;
      ScanCounts(st, name, st.decls, w);
      LabelsAppend(p.modules, found);
    }
  }

  /** The names of two lists of units, one after the other. */
  lemma LabelsAppend(a: seq<Named>, b: seq<Named>)
    ensures Labels(a + b) == Labels(a) + Labels(b)
  {
    assert |Labels(a + b)| == |Labels(a) + Labels(b)|;
    forall i | 0 <= i < |a + b| ensures Labels(a + b)[i] == (Labels(a) + Labels(b))[i] {
      if i >= |a| {
        assert (a + b)[i] == b[i - |a|];
      }
    }
  }

  /** The run ends early exactly when some declaration of some listed name cannot be instantiated. */
  lemma {:induction false} AbortsIff(st: Setting, names: seq<string>, w: World.World)
    ensures LoadAll(st, names, w).Aborted? <==>
              exists i, j :: 0 <= i < |names| && 0 <= j < |st.decls| && st.decls[j].name == names[i]
                             && Instantiate(st, names[i], st.decls[j], w).Err?
  {
    if |names| > 0 {
      var init := names[..|names| - 1];
      var name := names[|names| - 1];
      AbortsIff(st, init, w);
      ScanFails(st, name, st.decls, w);
      assert forall i :: 0 <= i < |init| ==> init[i] == names[i];
    }
  }

  /**
   * A missing name does not stop the run: the error left is that of the last missing name,
   * and there is none exactly when every name is declared.
   */
  lemma {:induction false} LastMissingReported(st: Setting, names: seq<string>, w: World.World)
    requires LoadAll(st, names, w).Running?
    ensures LoadAll(st, names, w).err.None? <==> forall i :: 0 <= i < |names| ==> Declared(st.decls, names[i])
    ensures LoadAll(st, names, w).err.Some? ==>
              exists k :: 0 <= k < |names| && !Declared(st.decls, names[k])
                          && LoadAll(st, names, w).err == Some(NotFound(names[k], st.project.name))
                          && forall i :: k < i < |names| ==> Declared(st.decls, names[i])
  {
    if |names| > 0 {
      var init := names[..|names| - 1];
      LastMissingReported(st, init, w);
      assert forall i :: 0 <= i < |init| ==> init[i] == names[i];
    }
  }

  // ---------------------------------------------------------------- lines

  const ActivateSeparator: string := " || return $?\n"
  const DeactivateSeparator: string := " || return 1\n"

  /** A unit's lines, its error wrapped with the module and project names ("activation lines" in both directions). */
  function Labelled(name: string, projectName: string, r: Result<seq<string>>): Result<seq<string>> {
    match r
    case Ok(lines) => Ok(lines)
    case Err(e) => Err("module " + name + " for project " + projectName + " could not generate activation lines, had err " + e)
  }

  /** Every unit's activation lines, in list order. */
  function SetupOutcomes(us: seq<Named>, projectName: string, w: World.World): (r: seq<Result<seq<string>>>)
    ensures |r| == |us|
  {
    seq(|us|, i requires 0 <= i < |us| => Labelled(us[i].name, projectName, Activate(us[i].unit, w)))
  }

  /** Every unit's deactivation lines, last unit first. */
  function TeardownOutcomes(us: seq<Named>, projectName: string): (r: seq<Result<seq<string>>>)
    ensures |r| == |us|
  {
    seq(|us|, i requires 0 <= i < |us| => Labelled(us[|us| - 1 - i].name, projectName, Deactivate(us[|us| - 1 - i].unit)))
  }

  /** The lines concatenated in order, or the first error. */
  function Gather(rs: seq<Result<seq<string>>>): Result<seq<string>> {
    var per :- Manager.All(rs);
    Ok(Strs.Concat(per))
  }

  /** `ShellActivateSh` on what `Modulers` returned: its error, or the lines in module order, joined. */
  function ActivationScript(l: Loaded, projectName: string, w: World.World): Result<string> {
    if l.err.Some? then Err(l.err.value)
    else
      var lines :- Gather(SetupOutcomes(l.modules, projectName, w));
      Ok(Strs.Join(lines, ActivateSeparator))
  }

  /** `ShellDeactivateSh` on what `Modulers` returned: its error, or the lines last unit first, joined. */
  function DeactivationScript(l: Loaded, projectName: string): Result<string> {
    if l.err.Some? then Err(l.err.value)
    else
      var lines :- Gather(TeardownOutcomes(l.modules, projectName));
      Ok(Strs.Join(lines, DeactivateSeparator))
  }

  /** The activation lines of each unit, first unit first (none for a unit that fails). */
  function SetupGroups(us: seq<Named>, w: World.World): (r: seq<seq<string>>)
    ensures |r| == |us|
  {
    seq(|us|, i requires 0 <= i < |us| => match Activate(us[i].unit, w) case Ok(lines) => lines case Err(_) => [])
  }

  /** The deactivation lines of each unit, last unit first (none for a unit that fails). */
  function TeardownGroups(us: seq<Named>): (r: seq<seq<string>>)
    ensures |r| == |us|
  {
    seq(|us|, i requires 0 <= i < |us| => match Deactivate(us[|us| - 1 - i].unit) case Ok(lines) => lines case Err(_) => [])
  }

  /** Gathering succeeds exactly when every result does, and then concatenates their lines. */
  lemma GatherAll(rs: seq<Result<seq<string>>>, groups: seq<seq<string>>)
    requires |groups| == |rs|
    requires forall i :: 0 <= i < |rs| && rs[i].Ok? ==> rs[i].value == groups[i]
    ensures Gather(rs).Ok? <==> forall i :: 0 <= i < |rs| ==> rs[i].Ok?
    ensures Gather(rs).Ok? ==> Gather(rs) == Ok(Strs.Concat(groups))
  {
    Manager.AllOrNothing(rs);
    if Manager.All(rs).Ok? {
      assert Manager.All(rs).value == groups;
    }
  }

  /** Activation succeeds exactly when every unit's does, and strings their lines together in module order. */
  lemma ActivationInOrder(us: seq<Named>, projectName: string, w: World.World)
    ensures Gather(SetupOutcomes(us, projectName, w)).Ok? <==> forall i :: 0 <= i < |us| ==> Activate(us[i].unit, w).Ok?
    ensures Gather(SetupOutcomes(us, projectName, w)).Ok? ==>
              Gather(SetupOutcomes(us, projectName, w)) == Ok(Strs.Concat(SetupGroups(us, w)))
  {
    var rs := SetupOutcomes(us, projectName, w);
    var groups := SetupGroups(us, w);
    forall i | 0 <= i < |us|
      ensures rs[i].Ok? == Activate(us[i].unit, w).Ok? && (rs[i].Ok? ==> rs[i].value == groups[i])
    {
      LabelledKeeps(us[i].name, projectName, Activate(us[i].unit, w));
    }
    GatherAll(rs, groups);
  }

  lemma LabelledKeeps(name: string, projectName: string, r: Result<seq<string>>)
    ensures Labelled(name, projectName, r).Ok? == r.Ok?
    ensures r.Ok? ==> Labelled(name, projectName, r).value == r.value
  {
  }

  /**
   * Deactivation tears the units down in reverse, the i-th group of lines coming from the
   * (N-1-i)-th unit; it fails exactly when some unit's deactivation does, which only a
   * jump unit's can.
   */
  lemma DeactivationReversed(us: seq<Named>, projectName: string)
    ensures Gather(TeardownOutcomes(us, projectName)).Ok? <==>
              forall i :: 0 <= i < |us| ==> Deactivate(us[i].unit).Ok?
    ensures Gather(TeardownOutcomes(us, projectName)).Ok? ==>
              Gather(TeardownOutcomes(us, projectName)) == Ok(Strs.Concat(TeardownGroups(us)))
    ensures (forall i :: 0 <= i < |us| ==> !us[i].unit.JumpUnit?) ==> Gather(TeardownOutcomes(us, projectName)).Ok?
  {
    var rs := TeardownOutcomes(us, projectName);
    var groups := TeardownGroups(us);
    forall i | 0 <= i < |us|
      ensures rs[i].Ok? == Deactivate(us[|us| - 1 - i].unit).Ok? && (rs[i].Ok? ==> rs[i].value == groups[i])
    {
      LabelledKeeps(us[|us| - 1 - i].name, projectName, Deactivate(us[|us| - 1 - i].unit));
    }
    GatherAll(rs, groups);
    if forall i :: 0 <= i < |us| ==> Deactivate(us[i].unit).Ok? {
      forall i | 0 <= i < |rs| ensures rs[i].Ok? {
        assert Deactivate(us[|us| - 1 - i].unit).Ok?;
      }
    } else {
      var i :| 0 <= i < |us| && Deactivate(us[i].unit).Err?;
      assert rs[|us| - 1 - i].Err?;
    }
  }

  /** The activation loop of `ShellActivateSh`: every unit's lines, first unit first. */
  method ActivationLines(us: seq<Named>, projectName: string, w: World.World) returns (r: Result<seq<string>>)
    ensures r == Gather(SetupOutcomes(us, projectName, w))
  {
    ghost var rs := SetupOutcomes(us, projectName, w);
    ghost var per: seq<seq<string>> := [];
    var activationCommands: seq<string> := [];
    for i := 0 to |us|
      invariant Manager.All(rs[..i]) == Ok(per)
      invariant activationCommands == Strs.Concat(per)
    {
      var lines := UnitActivation(us, projectName, w, i, per);
      if lines.Err? {
        return lines;
      }
      Strs.ConcatAppend(per, lines.value);
      per := per + [lines.value];
      activationCommands := activationCommands + lines.value;
    }
    assert rs[..|us|] == rs;
    r := Ok(activationCommands);
  }

  /** One turn of the activation loop: the unit's lines, or its error labelled with the unit and project. */
  method UnitActivation(us: seq<Named>, projectName: string, w: World.World, i: nat, ghost per: seq<seq<string>>)
      returns (lines: Result<seq<string>>)
    requires i < |us| && Manager.All(SetupOutcomes(us, projectName, w)[..i]) == Ok(per)
    ensures lines.Ok? ==> Manager.All(SetupOutcomes(us, projectName, w)[..i + 1]) == Ok(per + [lines.value])
    ensures lines.Err? ==> Gather(SetupOutcomes(us, projectName, w)) == lines
  {
    ghost var rs := SetupOutcomes(us, projectName, w);
    lines := Activate(us[i].unit, w);
    assert rs[i] == Labelled(us[i].name, projectName, lines);
    Manager.AllStep(rs, per, i);
    if lines.Err? {
      return Err("module " + us[i].name + " for project " + projectName + " could not generate activation lines, had err " + lines.msg);
    }
  }

  /** The deactivation loop of `ShellDeactivateSh`: every unit's lines, last unit first. */
  method DeactivationLines(us: seq<Named>, projectName: string) returns (r: Result<seq<string>>)
    ensures r == Gather(TeardownOutcomes(us, projectName))
  {
    ghost var rs := TeardownOutcomes(us, projectName);
    ghost var per: seq<seq<string>> := [];
    var deactivationCommands: seq<string> := [];
    var i := |us|;
    while i > 0
      invariant 0 <= i <= |us|
      invariant Manager.All(rs[..|us| - i]) == Ok(per)
      invariant deactivationCommands == Strs.Concat(per)
    {
      i := i - 1;
      ghost var k := |us| - 1 - i;
      assert rs[..k + 1][..k] == rs[..k];
      assert rs[k] == Labelled(us[i].name, projectName, Deactivate(us[i].unit));
      var lines := Deactivate(us[i].unit);
      if lines.Err? {
        Manager.AllErrorSticks(rs, k + 1);
        return Err("module " + us[i].name + " for project " + projectName + " could not generate activation lines, had err " + lines.msg);
      }
      Strs.ConcatAppend(per, lines.value);
      per := per + [lines.value];
      deactivationCommands := deactivationCommands + lines.value;
    }
    assert rs[..|us|] == rs;
    r := Ok(deactivationCommands);
  }

  // ---------------------------------------------------------------- the manager

  /**
   * The inner loop of the once-function for one module name: instantiate every declaration
   * carrying it, stopping at an unknown type or a failing constructor.
   */
  method ScanDecls(st: Setting, moduleName: string, w: World.World) returns (found: bool, r: Result<seq<Named>>)
    ensures r == Scan(st, moduleName, st.decls, w)
    ensures found <==> Declared(st.decls, moduleName)
  {
    found := false;
    var modules: seq<Named> := [];
    for j := 0 to |st.decls|
      invariant Scan(st, moduleName, st.decls[..j], w) == Ok(modules)
      invariant found <==> Declared(st.decls[..j], moduleName)
    {
      DeclaredStep(st.decls, j, moduleName);
      if st.decls[j].name == moduleName {
        found := true;
      }
      var step := ScanStep(st, moduleName, j, w, modules);
      if step.Err? {
        ScanErrorSticks(st, moduleName, st.decls, j + 1, w);
        DeclaredExtends(st.decls, j, moduleName);
        return found, step;
      }
      modules := step.value;
    }
    assert st.decls[..|st.decls|] == st.decls;
    r := Ok(modules);
  }

  /** One turn of the inner loop: a declaration carrying another name is passed over. */
  method ScanStep(st: Setting, moduleName: string, j: nat, w: World.World, modules: seq<Named>) returns (r: Result<seq<Named>>)
    requires j < |st.decls| && Scan(st, moduleName, st.decls[..j], w) == Ok(modules)
    ensures r == Scan(st, moduleName, st.decls[..j + 1], w)
    ensures r.Err? ==> st.decls[j].name == moduleName
  {
    assert st.decls[..j + 1][..j] == st.decls[..j];
    var decl := st.decls[j];
    if decl.name != moduleName {
      return Ok(modules);
    }
    var preparedModule := InstantiateDecl(st, moduleName, decl, w);
    if preparedModule.Err? {
      return Err(preparedModule.msg);
    }
    r := Ok(modules + [preparedModule.value]);
  }

  /** Whether a name is declared in one more declaration. */
  lemma DeclaredStep(decls: seq<Venvy.Module>, j: nat, name: string)
    requires j < |decls|
    ensures Declared(decls[..j + 1], name) <==> Declared(decls[..j], name) || decls[j].name == name
  {
    assert decls[..j + 1][j] == decls[j];
    if Declared(decls[..j + 1], name) && decls[j].name != name {
      var k :| 0 <= k < j + 1 && decls[..j + 1][k].name == name;
      assert decls[..j][k] == decls[..j + 1][k];
    }
    if Declared(decls[..j], name) {
      var k :| 0 <= k < j && decls[..j][k].name == name;
      assert decls[..j + 1][k] == decls[..j][k];
    }
  }

  /** The body of the inner loop for a matching declaration: look up its type and call the constructor. */
  method InstantiateDecl(st: Setting, moduleName: string, decl: Venvy.Module, w: World.World) returns (r: Result<Named>)
    ensures r == Instantiate(st, moduleName, decl, w)
  {
    if decl.kind !in ModuleMakers {
      return Err("module " + moduleName + " for project " + st.project.name + " has unkown type " + decl.kind);
    }
    var preparedModule := Make(ModuleMakers[decl.kind], st.ctx, w, st.jump, decl);
    if preparedModule.Err? {
      return Err("module " + decl.name + " for project " + st.project.name + " could not initializaed, had err " + preparedModule.msg);
    }
    r := Ok(Named(moduleName, preparedModule.value));
  }

  /** A name declared at position j is declared in every longer prefix. */
  lemma DeclaredExtends(decls: seq<Venvy.Module>, j: nat, name: string)
    requires j < |decls| && decls[j].name == name
    ensures Declared(decls, name)
  {
  }


  class ProjectManager {
    /** The embedded `*Config`, shared with whoever built the manager. */
    var config: Venvy.Config
    /** `activeProject`, a pointer into `config.projects`: here its index. */
    var active: nat
    const configPath: string
    const storageRoot: string
    const jump: JumpMaker
    var loadedModules: seq<Named>
    var lmError: Option<string>
    /** Whether the `sync.Once` has run. */
    var done: bool

    predicate Valid()
      reads this
    {
      active < |config.projects| && (!done ==> loadedModules == [] && lmError == None)
    }

    function Project(): Venvy.Project
      reads this
      requires Valid()
    {
      config.projects[active]
    }

    /** What the units see of the manager. */
    function Ctx(): LegacyPaths.Ctx
      reads this
      requires Valid()
    {
      LegacyPaths.Ctx(Project().name, configPath, Project().root, storageRoot)
    }

    function Current(): Setting
      reads this
      requires Valid()
    {
      Setting(Project(), config.modules, Ctx(), jump)
    }

    /** What `Modulers` returns now: the remembered pair once the once-function has run, a fresh load before. */
    function LoadedNow(w: World.World): Loaded
      reads this
      requires Valid()
    {
      if done then Loaded(loadedModules, lmError) else Load(Current(), w)
    }

    constructor(config: Venvy.Config, active: nat, configPath: string, storageRoot: string, jump: JumpMaker)
      requires active < |config.projects|
      ensures Valid() && !done
      ensures this.config == config && this.active == active
      ensures this.configPath == configPath && this.storageRoot == storageRoot
    {
      this.config := config;
      this.active := active;
      this.configPath := configPath;
      this.storageRoot := storageRoot;
      this.jump := jump;
      this.loadedModules := [];
      this.lmError := None;
      this.done := false;
    }

    /**
     * `Modulers`: the first call runs the once-function and remembers its outcome; every
     * later call returns that outcome again, whatever the configuration has become.
     */
    method Modulers(w: World.World) returns (l: Loaded)
      requires Valid()
      modifies this
      ensures Valid() && done
      ensures config == old(config) && active == old(active)
      ensures l == old(LoadedNow(w)) && LoadedNow(w) == l
      ensures old(done) ==> loadedModules == old(loadedModules) && lmError == old(lmError)
    {
      if done {
        return Loaded(loadedModules, lmError);
      }
      var st := Current();
      var names := Project().modules;
      var modules: seq<Named> := [];
      for i := 0 to |names|
        invariant active < |config.projects| && !done && loadedModules == []
        invariant config == old(config) && active == old(active)
        invariant LoadAll(st, names[..i], w) == Running(modules, lmError)
      {
        var moduleName := names[i];
        assert names[..i + 1][..i] == names[..i];
        var found, scanned := ScanDecls(st, moduleName, w);
        if scanned.Err? {
          lmError := Some(scanned.msg);
          done := true;
          AbortSticks(st, names, i + 1, w);
          return Loaded([], lmError);
        }
        modules := modules + scanned.value;
        if !found {
          lmError := Some(NotFound(moduleName, st.project.name));
        }
      }
      assert names[..|names|] == names;
      loadedModules := modules;
      done := true;
      l := Loaded(loadedModules, lmError);
    }

    /** `ShellActivateSh`: the units' activation lines in module order, each but the last followed by `|| return $?`. */
    method ShellActivateSh(w: World.World) returns (r: Result<string>)
      requires Valid()
      modifies this
      ensures Valid() && done && config == old(config) && active == old(active)
      ensures r == ActivationScript(old(LoadedNow(w)), Project().name, w)
    {
      var modules := Modulers(w);
      if modules.err.Some? {
        return Err(modules.err.value);
      }
      var activationCommands := ActivationLines(modules.modules, Project().name, w);
      if activationCommands.Err? {
        return Err(activationCommands.msg);
      }
      r := Ok(Strs.Join(activationCommands.value, ActivateSeparator));
    }

    /** `ShellDeactivateSh`: the units' deactivation lines, last unit first, each but the last followed by `|| return 1`. */
    method ShellDeactivateSh(w: World.World) returns (r: Result<string>)
      requires Valid()
      modifies this
      ensures Valid() && done && config == old(config) && active == old(active)
      ensures r == DeactivationScript(old(LoadedNow(w)), Project().name)
    {
      var modules := Modulers(w);
      if modules.err.Some? {
        return Err(modules.err.value);
      }
      var deactivationCommands := DeactivationLines(modules.modules, Project().name);
      if deactivationCommands.Err? {
        return Err(deactivationCommands.msg);
      }
      r := Ok(Strs.Join(deactivationCommands.value, DeactivateSeparator));
    }

    /**
     * `AppendModulesOnProject`: the declarations go at the end of the configuration's and
     * their names at the end of the active project's list; what `Modulers` remembered stays.
     */
    method AppendModulesOnProject(ms: seq<Venvy.Module>)
      requires Valid()
      modifies this
      ensures Valid() && active == old(active)
      ensures config.modules == old(config.modules) + ms
      ensures config.projects == old(config.projects)[active := old(Project()).(modules := old(Project().modules) + Manager.Names(ms))]
      ensures done == old(done) && loadedModules == old(loadedModules) && lmError == old(lmError)
    {
      ghost var p0 := Project();
      ghost var ps0 := config.projects;
      config := config.(modules := config.modules + ms);
      assert Manager.Names(ms[..0]) == [];
      assert p0.(modules := p0.modules + []) == p0;
      for i := 0 to |ms|
        invariant Valid() && active == old(active) && done == old(done)
        invariant loadedModules == old(loadedModules) && lmError == old(lmError)
        invariant config.modules == old(config.modules) + ms
        invariant config.projects == ps0[active := p0.(modules := p0.modules + Manager.Names(ms[..i]))]
      {
        assert ms[..i + 1][..i] == ms[..i];
        assert Manager.Names(ms[..i + 1]) == Manager.Names(ms[..i]) + [ms[i].name];
        var p := config.projects[active];
        assert p.modules + [ms[i].name] == p0.modules + Manager.Names(ms[..i + 1]);
        config := config.(projects := config.projects[active := p.(modules := p.modules + [ms[i].name])]);
      }
      assert ms[..|ms|] == ms;
    }
  }

  /** The index of the last project with the name; the Go loop has no `break`. */
  function LastIndex(ps: seq<Venvy.Project>, name: string): (r: Option<nat>)
    ensures r.Some? ==> r.value < |ps| && ps[r.value].name == name
  {
    if |ps| == 0 then None
    else if ps[|ps| - 1].name == name then Some(|ps| - 1)
    else LastIndex(ps[..|ps| - 1], name)
  }

  /** The older manager picks the same project as the newer config manager: the last declared with the name. */
  lemma {:induction false} LastIndexAgrees(ps: seq<Venvy.Project>, name: string)
    ensures LastIndex(ps, name).None? <==> ConfigManagers.LastProject(ps, name).None?
    ensures LastIndex(ps, name).Some? ==> ps[LastIndex(ps, name).value] == ConfigManagers.LastProject(ps, name).value
    ensures LastIndex(ps, name).Some? ==> forall j :: LastIndex(ps, name).value < j < |ps| ==> ps[j].name != name
  {
    if |ps| > 0 && ps[|ps| - 1].name != name {
      LastIndexAgrees(ps[..|ps| - 1], name);
    }
  }

  /**
   * `NewProjectManager`: the last project with the name becomes the active one; without
   * one it is an error.
   */
  method NewProjectManager(config: Venvy.Config, configPath: string, activeProject: string, storageRoot: string, jump: JumpMaker)
    returns (r: Result<ProjectManager>)
    ensures r.Err? <==> LastIndex(config.projects, activeProject).None?
    ensures r.Err? ==> r.msg == "project " + activeProject + " not found in config"
    ensures r.Ok? ==> fresh(r.value) && r.value.Valid() && !r.value.done
    ensures r.Ok? ==> r.value.config == config && r.value.active == LastIndex(config.projects, activeProject).value
    ensures r.Ok? ==> r.value.configPath == configPath && r.value.storageRoot == storageRoot
  {
    var found: Option<nat> := None;
    for i := 0 to |config.projects|
      invariant found == LastIndex(config.projects[..i], activeProject)
    {
      assert config.projects[..i + 1][..i] == config.projects[..i];
      if config.projects[i].name == activeProject {
        found := Some(i);
      }
    }
    assert config.projects[..|config.projects|] == config.projects;
    if found.None? {
      return Err("project " + activeProject + " not found in config");
    }
    var manager := new ProjectManager(config, found.value, configPath, storageRoot, jump);
    r := Ok(manager);
  }
}
