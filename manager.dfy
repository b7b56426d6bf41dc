/**
 * manager/project_manager.go: a project manager resolves the project's module names into
 * constructed units, all or nothing, and turns them into shell lines: activation lines in
 * module order, deactivation lines in the reverse order.  Extra modules can be added at
 * either end of the list.  The path arithmetic it offers the units is ProjectPaths.
 */
module Manager {
  import opened Wrappers
  import World
  import Strs
  import Venvy
  import ProjectPaths
  import Registry
  import DataManagers

  /** `NamedModuler`: a unit with the module name it was resolved from. */
  datatype Named = Named(name: string, unit: Registry.Moduler)

  /** What resolution reads from the manager: the project, its related modules, the registry and the unit context. */
  datatype Setting = Setting(
    project: Venvy.Project,
    related: map<string, Venvy.Module>,
    makers: map<string, Registry.Maker>,
    ctx: ProjectPaths.Ctx)

  // ---------------------------------------------------------------- resolution

  /** One module name: look it up, find its type's constructor, construct the unit. */
  function ResolveOne(st: Setting, name: string, w: World.World): (r: Result<Named>)
    ensures name !in st.related ==> r == Err("module " + name + " not found for project " + st.project.name)
    ensures r.Ok? ==> r.value.name == name && name in st.related && st.related[name].kind in st.makers
  {
    if name !in st.related then Err("module " + name + " not found for project " + st.project.name)
    else
      var m := st.related[name];
      if m.kind !in st.makers then
        Err("module " + name + " for project " + st.project.name + " has unkown type " + m.kind)
      else
        match Registry.Make(st.makers[m.kind], st.ctx, w, m)
        case Err(e) => Err("module " + m.name + " for project " + st.project.name + " could not initializaed, had err " + e)
        case Ok(u) => Ok(Named(name, u))
  }

  /** The results in order, or the first error among them. */
  function All<T>(rs: seq<Result<T>>): (r: Result<seq<T>>)
    ensures r.Ok? ==> |r.value| == |rs|
    ensures r.Ok? ==> forall i :: 0 <= i < |rs| ==> rs[i].Ok? && r.value[i] == rs[i].value
  {
    if |rs| == 0 then Ok([])
    else
      var init :- All(rs[..|rs| - 1]);
      var last :- rs[|rs| - 1];
      Ok(init + [last])
  }

  /** Results that are all successes give exactly their values. */
  lemma AllOks<T>(rs: seq<Result<T>>, vs: seq<T>)
    requires |rs| == |vs| && forall i :: 0 <= i < |rs| ==> rs[i] == Ok(vs[i])
    ensures All(rs) == Ok(vs)
  {
    AllOrNothing(rs);
    assert All(rs).value == vs;
  }

  /** All succeeds exactly when every result does: there is no partial list. */
  lemma {:induction false} AllOrNothing<T>(rs: seq<Result<T>>)
    ensures All(rs).Ok? <==> forall i :: 0 <= i < |rs| ==> rs[i].Ok?
  {
    if |rs| > 0 {
      var init := rs[..|rs| - 1];
      AllOrNothing(init);
      assert forall i :: 0 <= i < |init| ==> init[i] == rs[i];
    }
  }

  /** Once a prefix fails, the whole list fails the same way. */
  lemma {:induction false} AllErrorSticks<T>(rs: seq<Result<T>>, k: nat)
    requires k <= |rs| && All(rs[..k]).Err?
    ensures All(rs) == All(rs[..k])
    decreases |rs| - k
  {
    if k == |rs| {
      assert rs[..k] == rs;
    } else {
      assert rs[..k + 1][..k] == rs[..k];
      AllErrorSticks(rs, k + 1);
    }
  }

  /** One more result: a success extends the list, a failure is the failure of the whole. */
  lemma AllStep<T>(rs: seq<Result<T>>, per: seq<T>, i: nat)
    requires i < |rs| && All(rs[..i]) == Ok(per)
    ensures rs[i].Ok? ==> All(rs[..i + 1]) == Ok(per + [rs[i].value])
    ensures rs[i].Err? ==> All(rs) == Err(rs[i].msg)
  {
    assert rs[..i + 1][..i] == rs[..i];
    if rs[i].Err? {
      AllErrorSticks(rs, i + 1);
    }
  }

  /** The error is that of the first result that fails. */
  lemma AllFirstError<T>(rs: seq<Result<T>>, i: nat)
    requires i < |rs| && rs[i].Err?
    requires forall j :: 0 <= j < i ==> rs[j].Ok?
    ensures All(rs) == Err(rs[i].msg)
  {
    var prefix := rs[..i + 1];
    assert prefix[..i] == rs[..i];
    AllOrNothing(rs[..i]);
    AllErrorSticks(rs, i + 1);
  }

  /** Every name resolved on its own. */
  function ResolveEach(st: Setting, names: seq<string>, w: World.World): (r: seq<Result<Named>>)
    ensures |r| == |names|
    ensures forall i :: 0 <= i < |names| ==> r[i] == ResolveOne(st, names[i], w)
  {
    if |names| == 0 then [] else ResolveEach(st, names[..|names| - 1], w) + [ResolveOne(st, names[|names| - 1], w)]
  }

  /** `Modulers`: every name resolved in order; the first name that fails is the error. */
  function Resolve(st: Setting, names: seq<string>, w: World.World): (r: Result<seq<Named>>)
    ensures r.Ok? ==> |r.value| == |names|
    ensures r.Ok? ==> forall i :: 0 <= i < |names| ==> r.value[i].name == names[i]
  {
    All(ResolveEach(st, names, w))
  }

  /** Resolution succeeds exactly when every name resolves: no partial list is ever returned. */
  lemma ResolveAllOrNothing(st: Setting, names: seq<string>, w: World.World)
    ensures Resolve(st, names, w).Ok? <==> forall i :: 0 <= i < |names| ==> ResolveOne(st, names[i], w).Ok?
  {
    AllOrNothing(ResolveEach(st, names, w));
  }

  /** A failing resolution reports the first name that does not resolve. */
  lemma ResolveFirstError(st: Setting, names: seq<string>, w: World.World, i: nat)
    requires i < |names| && ResolveOne(st, names[i], w).Err?
    requires forall j :: 0 <= j < i ==> ResolveOne(st, names[j], w).Ok?
    ensures Resolve(st, names, w) == Err(ResolveOne(st, names[i], w).msg)
  {
    AllFirstError(ResolveEach(st, names, w), i);
  }

  // ---------------------------------------------------------------- lines

  /** The lines of one unit, its error wrapped with the module and project names. */
  function Lines(u: Named, deactivate: bool, projectName: string, w: World.World): (r: Result<seq<string>>)
    ensures deactivate ==> r == Registry.Deactivate(u.unit, w)
  {
    match (if deactivate then Registry.Deactivate(u.unit, w) else Registry.Activate(u.unit, w))
    case Ok(lines) => Ok(lines)
    case Err(e) => Err("module " + u.name + " for project " + projectName + " could not generate activation lines, had err " + e)
  }

  /** The lines of every unit, in list order. */
  function Outcomes(us: seq<Named>, deactivate: bool, projectName: string, w: World.World): (r: seq<Result<seq<string>>>)
    ensures |r| == |us|
  {
    seq(|us|, i requires 0 <= i < |us| => Lines(us[i], deactivate, projectName, w))
  }

  /** The units' lines concatenated in list order, or the first unit's error. */
  function Collect(us: seq<Named>, deactivate: bool, projectName: string, w: World.World): Result<seq<string>> {
    var per :- All(Outcomes(us, deactivate, projectName, w));
    Ok(Strs.Concat(per))
  }

  /** The activation lines of the units, first unit first (none for a unit that fails). */
  function SetupGroups(us: seq<Named>, w: World.World): (r: seq<seq<string>>)
    ensures |r| == |us|
  {
    seq(|us|, i requires 0 <= i < |us| => match Registry.Activate(us[i].unit, w) case Ok(lines) => lines case Err(_) => [])
  }

  /** Activation succeeds exactly when every unit's does, and concatenates their lines in module order. */
  lemma ActivationInOrder(us: seq<Named>, projectName: string, w: World.World)
    ensures Collect(us, false, projectName, w).Ok? <==> forall i :: 0 <= i < |us| ==> Registry.Activate(us[i].unit, w).Ok?
    ensures Collect(us, false, projectName, w).Ok? ==> Collect(us, false, projectName, w) == Ok(Strs.Concat(SetupGroups(us, w)))
  {
    var rs := Outcomes(us, false, projectName, w);
    var groups := SetupGroups(us, w);
    forall i | 0 <= i < |us|
      ensures rs[i].Ok? == Registry.Activate(us[i].unit, w).Ok? && (rs[i].Ok? ==> rs[i].value == groups[i])
    {
      SetupKeeps(us[i], projectName, w);
    }
    AllOrNothing(rs);
    if All(rs).Ok? {
      assert All(rs).value == groups;
    }
  }

  /** A unit's activation lines come out of `Lines` as they are, and its error only relabelled. */
  lemma SetupKeeps(u: Named, projectName: string, w: World.World)
    ensures Lines(u, false, projectName, w).Ok? == Registry.Activate(u.unit, w).Ok?
    ensures Lines(u, false, projectName, w).Ok? ==> Lines(u, false, projectName, w).value == Registry.Activate(u.unit, w).value
    ensures Lines(u, false, projectName, w).Err? ==>
              Lines(u, false, projectName, w).msg == "module " + u.name + " for project " + projectName
                + " could not generate activation lines, had err " + Registry.Activate(u.unit, w).msg
  {
  }

  /** Deactivation never fails for a resolved list. */
  lemma DeactivationNeverFails(us: seq<Named>, projectName: string, w: World.World)
    ensures Collect(us, true, projectName, w).Ok?
  {
    AllOrNothing(Outcomes(us, true, projectName, w));
  }

  function Reverse<T>(xs: seq<T>): (r: seq<T>)
    ensures |r| == |xs|
    ensures forall i :: 0 <= i < |xs| ==> r[i] == xs[|xs| - 1 - i]
  {
    if |xs| == 0 then [] else [xs[|xs| - 1]] + Reverse(xs[..|xs| - 1])
  }

  /** The names of module declarations, in order. */
  function Names(ms: seq<Venvy.Module>): (r: seq<string>)
    ensures |r| == |ms|
    ensures forall i :: 0 <= i < |ms| ==> r[i] == ms[i].name
  {
    if |ms| == 0 then [] else Names(ms[..|ms| - 1]) + [ms[|ms| - 1].name]
  }

  /** The related-modules map after registering the declarations in order: a later one replaces an earlier one. */
  function Register(related: map<string, Venvy.Module>, ms: seq<Venvy.Module>): (r: map<string, Venvy.Module>)
    ensures r.Keys == related.Keys + set i | 0 <= i < |ms| :: ms[i].name
  {
    if |ms| == 0 then related
    else
      var init := Register(related, ms[..|ms| - 1]);
      assert forall i :: 0 <= i < |ms| - 1 ==> ms[..|ms| - 1][i] == ms[i];
      init[ms[|ms| - 1].name := ms[|ms| - 1]]
  }

  /** Registering one more declaration updates its name's entry. */
  lemma RegisterStep(related: map<string, Venvy.Module>, ms: seq<Venvy.Module>, k: nat)
    requires k < |ms|
    ensures Register(related, ms[..k + 1]) == Register(related, ms[..k])[ms[k].name := ms[k]]
  {
    assert ms[..k + 1][..k] == ms[..k];
  }

  /** One step of `PrependModules`: the declaration before position `i` goes to the front and is registered. */
  lemma PrependStep(related: map<string, Venvy.Module>, modules: seq<string>, ms: seq<Venvy.Module>, i: nat)
    requires i < |ms|
    ensures [ms[i].name] + (Names(ms)[i + 1..] + modules) == Names(ms)[i..] + modules
    ensures Register(related, Reverse(ms)[..|ms| - (i + 1)])[ms[i].name := ms[i]] == Register(related, Reverse(ms)[..|ms| - i])
  {
    var rev := Reverse(ms);
    assert rev[|ms| - 1 - i] == ms[i];
    RegisterStep(related, rev, |ms| - 1 - i);
    assert Names(ms)[i..] == [ms[i].name] + Names(ms)[i + 1..];
  }

  /** A name registered by the declarations maps to the last of them with that name. */
  lemma {:induction false} RegisterLastWins(related: map<string, Venvy.Module>, ms: seq<Venvy.Module>, i: nat)
    requires i < |ms|
    requires forall j :: i < j < |ms| ==> ms[j].name != ms[i].name
    ensures Register(related, ms)[ms[i].name] == ms[i]
  {
    if i < |ms| - 1 {
      RegisterLastWins(related, ms[..|ms| - 1], i);
    }
  }

  /** A name the declarations do not mention keeps its old entry. */
  lemma {:induction false} RegisterKeepsOthers(related: map<string, Venvy.Module>, ms: seq<Venvy.Module>, name: string)
    requires name in related
    requires forall j :: 0 <= j < |ms| ==> ms[j].name != name
    ensures Register(related, ms)[name] == related[name]
  {
    if |ms| > 0 {
      RegisterKeepsOthers(related, ms[..|ms| - 1], name);
    }
  }

  class ProjectManager {
    /** `Project`: its `modules` list is what Append/PrependModules grow. */
    var project: Venvy.Project
    /** `relatedModules`: the declaration each module name resolves to. */
    var related: map<string, Venvy.Module>
    /** The config manager's configuration path and registry, which the manager only reads. */
    const configPath: string
    const makers: map<string, Registry.Maker>
    /** The embedded data manager, on the project's storage directory. */
    const dm: DataManagers.DataManager

    constructor(project: Venvy.Project, related: map<string, Venvy.Module>, configPath: string,
                makers: map<string, Registry.Maker>, dm: DataManagers.DataManager)
      ensures this.project == project && this.related == related && this.configPath == configPath
      ensures this.makers == makers && this.dm == dm
    {
      this.project := project;
      this.related := related;
      this.configPath := configPath;
      this.makers := makers;
      this.dm := dm;
    }

    /** What the units see of the manager. */
    function Ctx(): ProjectPaths.Ctx
      reads this, dm
    {
      ProjectPaths.Ctx(project.name, configPath, project.root, dm.storageDir)
    }

    function Current(): Setting
      reads this, dm
    {
      Setting(project, related, makers, Ctx())
    }

    function Resolved(w: World.World): Result<seq<Named>>
      reads this, dm
    {
      Resolve(Current(), project.modules, w)
    }

    function Activation(w: World.World): Result<seq<string>>
      reads this, dm
    {
      ActivationOf(Current(), w)
    }

    function Deactivation(w: World.World): Result<seq<string>>
      reads this, dm
    {
      DeactivationOf(Current(), w)
    }

    /** `Modulers`: resolve every module name of the project, in order. */
    method Modulers(w: World.World) returns (r: Result<seq<Named>>)
      ensures r == Resolved(w)
    {
      var names := project.modules;
      ghost var rs := ResolveEach(Current(), names, w);
      var modules: seq<Named> := [];
      for i := 0 to |names|
        invariant All(rs[..i]) == Ok(modules)
      {
        var named := ResolveName(names[i], w);
        AllStep(rs, modules, i);
        if named.Err? {
          return Err(named.msg);
        }
        modules := modules + [named.value];
      }
      assert rs[..|names|] == rs;
      r := Ok(modules);
    }

    /** The body of the `Modulers` loop for one name: look it up, find its type's constructor, construct the unit. */
    method ResolveName(name: string, w: World.World) returns (r: Result<Named>)
      ensures r == ResolveOne(Current(), name, w)
    {
      if name !in related {
        return Err("module " + name + " not found for project " + project.name);
      }
      var decl := related[name];
      if decl.kind !in makers {
        return Err("module " + name + " for project " + project.name + " has unkown type " + decl.kind);
      }
      var prepared := Registry.Make(makers[decl.kind], Ctx(), w, decl);
      if prepared.Err? {
        return Err("module " + decl.name + " for project " + project.name + " could not initializaed, had err " + prepared.msg);
      }
      r := Ok(Named(name, prepared.value));
    }

    /** `ShellActivateCommands`: the units' activation lines, first module first. */
    method ShellActivateCommands(w: World.World) returns (r: Result<seq<string>>)
      ensures r == Activation(w)
    {
      var modules := Modulers(w);
      if modules.Err? {
        return Err(modules.msg);
      }
      r := ActivationLines(modules.value, project.name, w);
    }

    /** `ShellDeactivateCommands`: the units' deactivation lines, last module first. */
    method ShellDeactivateCommands(w: World.World) returns (r: Result<seq<string>>)
      ensures r == Deactivation(w)
    {
      var modules := Modulers(w);
      if modules.Err? {
        return Err(modules.msg);
      }
      r := DeactivationLines(modules.value, project.name, w);
    }

    /** `AppendModules`: the declarations are registered and their names added at the end, in argument order. */
    method AppendModules(ms: seq<Venvy.Module>)
      modifies this
      ensures project == old(project).(modules := old(project.modules) + Names(ms))
      ensures related == Register(old(related), ms)
    {
      for i := 0 to |ms|
        invariant project == old(project).(modules := old(project.modules) + Names(ms[..i]))
        invariant related == Register(old(related), ms[..i])
      {
        assert ms[..i + 1][..i] == ms[..i];
        related := related[ms[i].name := ms[i]];
        project := project.(modules := project.modules + [ms[i].name]);
      }
      assert ms[..|ms|] == ms;
    }

    /**
     * `PrependModules`: the declarations are taken from the last to the first, each put at
     * the front, so the list starts with them in argument order.
     */
    method PrependModules(ms: seq<Venvy.Module>)
      modifies this
      ensures project == old(project).(modules := Names(ms) + old(project.modules))
      ensures related == Register(old(related), Reverse(ms))
    {
      var rel, modules := related, project.modules;
      var i := |ms|;
      while i > 0
        invariant 0 <= i <= |ms|
        invariant modules == Names(ms)[i..] + old(project.modules)
        invariant rel == Register(old(related), Reverse(ms)[..|ms| - i])
        invariant unchanged(this)
      {
        i := i - 1;
        PrependStep(old(related), old(project.modules), ms, i);
        rel := rel[ms[i].name := ms[i]];
        modules := [ms[i].name] + modules;
      }
      related := rel;
      project := project.(modules := modules);
      assert Names(ms)[0..] == Names(ms);
      assert Reverse(ms)[..|ms|] == Reverse(ms);
    }
  }

  /** The activation lines of the project a setting describes: resolve every name, then collect in order. */
  function ActivationOf(st: Setting, w: World.World): Result<seq<string>> {
    var us :- Resolve(st, st.project.modules, w);
    Collect(us, false, st.project.name, w)
  }

  /** The deactivation lines of the project a setting describes: resolve every name, then collect in reverse. */
  function DeactivationOf(st: Setting, w: World.World): Result<seq<string>> {
    var us :- Resolve(st, st.project.modules, w);
    Collect(Reverse(us), true, st.project.name, w)
  }

  /** A unit's deactivation lines (deactivation never fails). */
  function Teardown(u: Named, w: World.World): seq<string> {
    match Registry.Deactivate(u.unit, w) case Ok(lines) => lines case Err(_) => []
  }

  /** The deactivation lines of the units, last unit first. */
  function TeardownGroups(us: seq<Named>, w: World.World): (r: seq<seq<string>>)
    ensures |r| == |us|
  {
    seq(|us|, i requires 0 <= i < |us| => Teardown(us[|us| - 1 - i], w))
  }

  /** A unit's deactivation outcome is always its teardown lines. */
  lemma TeardownLines(u: Named, projectName: string, w: World.World)
    ensures Lines(u, true, projectName, w) == Ok(Teardown(u, w))
  {
  }

  /** One more unit at the end is torn down first. */
  lemma TeardownGroupsSnoc(us: seq<Named>, u: Named, w: World.World)
    ensures TeardownGroups(us + [u], w) == [Teardown(u, w)] + TeardownGroups(us, w)
  {
    var longer := TeardownGroups(us + [u], w);
    var shorter := TeardownGroups(us, w);
    assert (us + [u])[|us|] == u;
    forall i | 0 <= i < |shorter|
      ensures longer[i + 1] == shorter[i]
    {
      assert (us + [u])[|us| - 1 - i] == us[|us| - 1 - i];
    }
    assert longer == [Teardown(u, w)] + shorter;
  }

  /** A unit in front is torn down last. */
  lemma TeardownGroupsCons(u: Named, us: seq<Named>, w: World.World)
    ensures TeardownGroups([u] + us, w) == TeardownGroups(us, w) + [Teardown(u, w)]
  {
    var longer := TeardownGroups([u] + us, w);
    var shorter := TeardownGroups(us, w);
    assert ([u] + us)[0] == u;
    forall i | 0 <= i < |shorter|
      ensures longer[i] == shorter[i]
    {
      assert ([u] + us)[|us| - i] == us[|us| - 1 - i];
    }
    assert longer == shorter + [Teardown(u, w)];
  }

  /** Deactivation tears the units down in reverse: the i-th group of lines comes from the (N-1-i)-th unit. */
  lemma DeactivationReversed(us: seq<Named>, projectName: string, w: World.World)
    ensures Collect(Reverse(us), true, projectName, w) == Ok(Strs.Concat(TeardownGroups(us, w)))
  {
    var rs := Outcomes(Reverse(us), true, projectName, w);
    var groups := TeardownGroups(us, w);
    forall i | 0 <= i < |rs|
      ensures rs[i] == Ok(groups[i])
    {
      assert Reverse(us)[i] == us[|us| - 1 - i];
      TeardownLines(us[|us| - 1 - i], projectName, w);
    }
    AllOks(rs, groups);
  }

  /** The activation loop of `ShellActivateCommands`: every unit's lines, first unit first. */
  method ActivationLines(us: seq<Named>, projectName: string, w: World.World) returns (r: Result<seq<string>>)
    ensures r == Collect(us, false, projectName, w)
  {
    ghost var rs := Outcomes(us, false, projectName, w);
    ghost var per: seq<seq<string>> := [];
    var commands: seq<string> := [];
    for i := 0 to |us|
      invariant All(rs[..i]) == Ok(per)
      invariant commands == Strs.Concat(per)
    {
      var lines := Registry.ShellActivateCommands(us[i].unit, w);
      SetupKeeps(us[i], projectName, w);
      AllStep(rs, per, i);
      if lines.Err? {
        return Err("module " + us[i].name + " for project " + projectName + " could not generate activation lines, had err " + lines.msg);
      }
      Strs.ConcatAppend(per, lines.value);
      per := per + [lines.value];
      commands := commands + lines.value;
    }
    assert rs[..|us|] == rs;
    r := Ok(commands);
  }

  /** The deactivation loop of `ShellDeactivateCommands`: every unit's lines, last unit first. */
  method DeactivationLines(us: seq<Named>, projectName: string, w: World.World) returns (r: Result<seq<string>>)
    ensures r == Collect(Reverse(us), true, projectName, w)
  {
    var commands: seq<string> := [];
    var i := |us|;
    while i > 0
      invariant 0 <= i <= |us|
      invariant commands == Strs.Concat(TeardownGroups(us[i..], w))
    {
      i := i - 1;
      // No unit's deactivation fails, so the error branch of the Go loop is never taken.
      var lines := Registry.ShellDeactivateCommands(us[i].unit, w);
      assert us[i..] == [us[i]] + us[i + 1..];
      TeardownGroupsCons(us[i], us[i + 1..], w);
      Strs.ConcatAppend(TeardownGroups(us[i + 1..], w), lines.value);
      commands := commands + lines.value;
    }
    assert us[0..] == us;
    DeactivationReversed(us, projectName, w);
    r := Ok(commands);
  }

  /** After prepending, the first declaration of a repeated name is the one registered. */
  lemma PrependFirstWins(related: map<string, Venvy.Module>, ms: seq<Venvy.Module>, i: nat)
    requires i < |ms|
    requires forall j :: 0 <= j < i ==> ms[j].name != ms[i].name
    ensures ms[i].name in Register(related, Reverse(ms)) && Register(related, Reverse(ms))[ms[i].name] == ms[i]
  {
    var rev := Reverse(ms);
    var k := |ms| - 1 - i;
    assert rev[k] == ms[i];
    forall j | k < j < |rev| ensures rev[j].name != rev[k].name {
      assert rev[j] == ms[|ms| - 1 - j];
    }
    RegisterLastWins(related, rev, k);
  }
}
