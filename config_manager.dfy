/**
 * venvy/config_manager.go: the config manager holds the decoded configuration and hands
 * out project managers.  A project is looked up by name (the last one declared with that
 * name wins), gets its own data manager below the config manager's storage directory,
 * and has each of its module names bound to the first module declared with that name.
 */
module ConfigManagers {
  import opened Wrappers
  import Venvy
  import Registry
  import Manager
  import DataManagers
  import Paths

  /** The last project declared with the name; the Go loop has no `break`. */
  function LastProject(ps: seq<Venvy.Project>, name: string): (r: Option<Venvy.Project>)
    ensures r.Some? ==> r.value.name == name
  {
    if |ps| == 0 then None
    else if ps[|ps| - 1].name == name then Some(ps[|ps| - 1])
    else LastProject(ps[..|ps| - 1], name)
  }

  /** `LastProject` finds a project exactly when one has the name, and then it is the last such. */
  lemma {:induction false} LastProjectIsLast(ps: seq<Venvy.Project>, name: string)
    ensures LastProject(ps, name).None? <==> forall i :: 0 <= i < |ps| ==> ps[i].name != name
    ensures LastProject(ps, name).Some? ==>
              exists i :: 0 <= i < |ps| && ps[i] == LastProject(ps, name).value
                          && forall j :: i < j < |ps| ==> ps[j].name != name
  {
    if |ps| > 0 && ps[|ps| - 1].name != name {
      var init := ps[..|ps| - 1];
      LastProjectIsLast(init, name);
      assert forall i :: 0 <= i < |init| ==> init[i] == ps[i];
    }
  }

  /** The first module declared with the name (the inner loop `break`s on it). */
  function FirstModule(ms: seq<Venvy.Module>, name: string): (r: Option<Venvy.Module>)
    ensures r.Some? ==> r.value.name == name && r.value in ms
    ensures r.None? <==> forall i :: 0 <= i < |ms| ==> ms[i].name != name
  {
    if |ms| == 0 then None
    else if ms[0].name == name then Some(ms[0])
    else
      var r := FirstModule(ms[1..], name);
      assert forall i :: 1 <= i < |ms| ==> ms[i] == ms[1..][i - 1];
      r
  }

  /** A found module is the first with its name. */
  lemma {:induction false} FirstModuleIsFirst(ms: seq<Venvy.Module>, name: string)
    requires FirstModule(ms, name).Some?
    ensures exists i :: 0 <= i < |ms| && ms[i] == FirstModule(ms, name).value
                        && forall j :: 0 <= j < i ==> ms[j].name != name
  {
    if ms[0].name != name {
      FirstModuleIsFirst(ms[1..], name);
      var i :| 0 <= i < |ms[1..]| && ms[1..][i] == FirstModule(ms[1..], name).value
               && forall j :: 0 <= j < i ==> ms[1..][j].name != name;
      assert ms[i + 1] == FirstModule(ms, name).value;
      forall j | 0 <= j < i + 1 ensures ms[j].name != name {
        if j > 0 {
          assert ms[j] == ms[1..][j - 1];
        }
      }
    } else {
      assert ms[0] == FirstModule(ms, name).value;
    }
  }

  /** `relatedModules`: each module name of the project bound to its first declaration. */
  function Related(names: seq<string>, ms: seq<Venvy.Module>, projectName: string): (r: Result<map<string, Venvy.Module>>)
    ensures r.Ok? ==> r.value.Keys == set i | 0 <= i < |names| :: names[i]
    ensures r.Ok? ==> forall n :: n in r.value ==> FirstModule(ms, n) == Some(r.value[n])
  {
    if |names| == 0 then Ok(map[])
    else
      var init := names[..|names| - 1];
      var m :- Related(init, ms, projectName);
      var name := names[|names| - 1];
      assert forall i :: 0 <= i < |init| ==> init[i] == names[i];
      match FirstModule(ms, name)
      case None => Err("module " + name + " not found which is needed for project " + projectName)
      case Some(d) => Ok(m[name := d])
  }

  /** Binding fails exactly when some module name has no declaration. */
  lemma {:induction false} RelatedFails(names: seq<string>, ms: seq<Venvy.Module>, projectName: string)
    ensures Related(names, ms, projectName).Err? <==> exists i :: 0 <= i < |names| && FirstModule(ms, names[i]).None?
  {
    if |names| > 0 {
      var init := names[..|names| - 1];
      RelatedFails(init, ms, projectName);
      assert forall i :: 0 <= i < |init| ==> init[i] == names[i];
      if FirstModule(ms, names[|names| - 1]).None? {
        assert Related(names, ms, projectName).Err?;
      }
    }
  }

  class ConfigManager {
    /** The embedded data manager, on the config manager's storage directory. */
    const dm: DataManagers.DataManager
    const config: Venvy.Config
    const configPath: string
    const makers: map<string, Registry.Maker>
    /** Looked up by `ProjectManager` but never filled in. */
    const pmCache: map<string, Manager.ProjectManager>

    constructor(dm: DataManagers.DataManager, config: Venvy.Config, configPath: string, makers: map<string, Registry.Maker>)
      ensures this.dm == dm && this.config == config && this.configPath == configPath && this.makers == makers
      ensures pmCache == map[]
    {
      this.dm := dm;
      this.config := config;
      this.configPath := configPath;
      this.makers := makers;
      this.pmCache := map[];
    }

    /** `StoragePath(elem...)` of the embedded data manager. */
    function StoragePath(elems: seq<string>): string
      reads dm
    {
      DataManagers.StoragePath(dm.storageDir, elems)
    }

    /**
     * `ProjectManager`: find the project, give it a data manager on
     * `StoragePath(projectName)`, bind its module names, and build the manager.
     */
    method ProjectManager(projectName: string) returns (pm: Manager.ProjectManager?, err: Option<string>)
      modifies dm.disk
      ensures projectName in pmCache ==> pm == pmCache[projectName] && err.None?
      ensures projectName !in pmCache && LastProject(config.projects, projectName).None? ==>
                pm == null && err == Some("project " + projectName + " not found in config")
      ensures projectName !in pmCache && LastProject(config.projects, projectName).Some? &&
              Paths.IsAbs(old(StoragePath([projectName]))) &&
              DataManagers.DataDir(old(StoragePath([projectName]))) !in dm.disk.locked ==>
                var project := LastProject(config.projects, projectName).value;
                var related := Related(project.modules, config.modules, projectName);
                (related.Err? ==> pm == null && err == Some(related.msg)) &&
                (related.Ok? ==> (err.None? && pm != null && fresh(pm)
                                  && pm.project == project && pm.related == related.value
                                  && pm.configPath == configPath && pm.makers == makers
                                  && pm.dm.storageDir == old(StoragePath([projectName]))))
      ensures projectName !in pmCache && LastProject(config.projects, projectName).Some? &&
              !Paths.IsAbs(old(StoragePath([projectName]))) ==>
                pm == null && err == Some("storage dir " + old(StoragePath([projectName])) + " not an absolute path")
      ensures projectName !in pmCache && LastProject(config.projects, projectName).Some? &&
              Paths.IsAbs(old(StoragePath([projectName]))) &&
              DataManagers.DataDir(old(StoragePath([projectName]))) in dm.disk.locked ==>
                pm == null && err.Some?
      ensures err.None? ==> pm != null
    {
      if projectName in pmCache {
        return pmCache[projectName], None;
      }
      var project := FindProject(config.projects, projectName);
      if project.None? {
        return null, Some("project " + projectName + " not found in config");
      }
      var storage := StoragePath([projectName]);
      var dataManager, dmErr := DataManagers.NewDataManager(dm.disk, storage);
      if dmErr.Some? {
        return null, dmErr;
      }
      var related := BindModules(project.value.modules, config.modules, projectName);
      if related.Err? {
        return null, Some(related.msg);
      }
      pm := new Manager.ProjectManager(project.value, related.value, configPath, makers, dataManager);
      err := None;
    }
  }

  /** The project loop of `ProjectManager`: every project is looked at, the last match kept. */
  method FindProject(ps: seq<Venvy.Project>, name: string) returns (project: Option<Venvy.Project>)
    ensures project == LastProject(ps, name)
  {
    project := None;
    for i := 0 to |ps|
      invariant project == LastProject(ps[..i], name)
    {
      assert ps[..i + 1][..i] == ps[..i];
      if ps[i].name == name {
        project := Some(ps[i]);
      }
    }
    assert ps[..|ps|] == ps;
  }

  /** The binding loops of `ProjectManager`: for each name, scan the declarations up to the first match. */
  method BindModules(names: seq<string>, ms: seq<Venvy.Module>, projectName: string)
      returns (r: Result<map<string, Venvy.Module>>)
    ensures r == Related(names, ms, projectName)
  {
    var related: map<string, Venvy.Module> := map[];
    for i := 0 to |names|
      invariant Related(names[..i], ms, projectName) == Ok(related)
    {
      var moduleName := names[i];
      assert names[..i + 1][..i] == names[..i];
      var decl := ScanModules(ms, moduleName);
      if decl.None? {
        RelatedErrorSticks(names, ms, projectName, i + 1);
        return Err("module " + moduleName + " not found which is needed for project " + projectName);
      }
      related := related[moduleName := decl.value];
    }
    assert names[..|names|] == names;
    r := Ok(related);
  }

  /** The inner loop of `ProjectManager`'s binding: scan the declarations, stopping at the first with the name. */
  method ScanModules(ms: seq<Venvy.Module>, name: string) returns (decl: Option<Venvy.Module>)
    ensures decl == FirstModule(ms, name)
  {
    var j := 0;
    while j < |ms|
      invariant 0 <= j <= |ms|
      invariant forall k :: 0 <= k < j ==> ms[k].name != name
    {
      if ms[j].name == name {
        FirstAt(ms, name, j);
        return Some(ms[j]);
      }
      j := j + 1;
    }
    decl := None;
  }

  /** The module at `j`, with no earlier one of the same name, is the first. */
  lemma {:induction false} FirstAt(ms: seq<Venvy.Module>, name: string, j: nat)
    requires j < |ms| && ms[j].name == name
    requires forall k :: 0 <= k < j ==> ms[k].name != name
    ensures FirstModule(ms, name) == Some(ms[j])
  {
    if j > 0 {
      assert forall k :: 0 <= k < j - 1 ==> ms[1..][k] == ms[k + 1];
      FirstAt(ms[1..], name, j - 1);
    }
  }

  lemma {:induction false} RelatedErrorSticks(names: seq<string>, ms: seq<Venvy.Module>, projectName: string, k: nat)
    requires k <= |names| && Related(names[..k], ms, projectName).Err?
    ensures Related(names, ms, projectName) == Related(names[..k], ms, projectName)
    decreases |names| - k
  {
    if k == |names| {
      assert names[..k] == names;
    } else {
      assert names[..k + 1][..k] == names[..k];
      RelatedErrorSticks(names, ms, projectName, k + 1);
    }
  }

  /** `NewConfigManager`: the config manager's data manager must come up, or there is no config manager. */
  method NewConfigManager(config: Venvy.Config, configPath: string, storageDir: string,
                          makers: map<string, Registry.Maker>, disk: DataManagers.Disk)
      returns (cm: ConfigManager?, err: Option<string>)
    modifies disk
    ensures err.Some? <==> cm == null
    ensures !Paths.IsAbs(storageDir) ==> err == Some("storage dir " + storageDir + " not an absolute path")
    ensures Paths.IsAbs(storageDir) ==> (err.None? <==> DataManagers.DataDir(storageDir) !in disk.locked)
    ensures cm != null ==> fresh(cm) && cm.config == config && cm.configPath == configPath && cm.makers == makers
                           && cm.pmCache == map[] && cm.dm.storageDir == storageDir && cm.dm.disk == disk
  {
    var dm, dmErr := DataManagers.NewDataManager(disk, storageDir);
    if dmErr.Some? {
      return null, dmErr;
    }
    cm := new ConfigManager(dm, config, configPath, makers);
    err := None;
  }
}
