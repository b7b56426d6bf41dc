/**
 * venvy/venvy.go (and the older config.go, which declares the same types): the
 * configuration a `venvy.toml` file holds once it has been turned into JSON, how it is
 * decoded, and what the validator demands of it.
 */
module Venvy {
  import opened Wrappers
  import Json
  import Util

  const ProjectName: string := "venvy"
  const Version: string := "0.0.0"

  /** A module declaration: its name, its type tag and its undecoded `Config` payload. */
  datatype Module = Module(name: string, kind: string, config: Json.Raw)

  datatype Project = Project(
    name: string,
    root: string,
    generation: int,
    modules: seq<string>,
    scriptSubcommands: seq<string>,
    disableBuiltinModules: bool)

  datatype Config = Config(projects: seq<Project>, modules: seq<Module>)

  // ---------------------------------------------------------------- validation

  /** `Name` carries the cleanName tag, `Type` is required, `Config` is not validated. */
  predicate ValidModule(m: Module) {
    Util.IsCleanName(m.name) && m.kind != ""
  }

  /** `Name` carries the cleanName tag and `Generation` is `min=0`. */
  predicate ValidProject(p: Project) {
    Util.IsCleanName(p.name) && p.generation >= 0
  }

  /** Both lists are validated element by element (`dive`). */
  predicate ValidConfig(c: Config) {
    (forall i :: 0 <= i < |c.projects| ==> ValidProject(c.projects[i]))
    && (forall i :: 0 <= i < |c.modules| ==> ValidModule(c.modules[i]))
  }

  function ProjectError(ps: seq<Project>, from: nat): (r: Option<string>)
    requires from <= |ps|
    ensures r.None? <==> forall i :: from <= i < |ps| ==> ValidProject(ps[i])
    decreases |ps| - from
  {
    if from == |ps| then None
    else if !Util.IsCleanName(ps[from].name) then Some("Key: 'Config.Projects.Name' Error:Field validation for 'Name' failed on the 'cleanName' tag")
    else if ps[from].generation < 0 then Some("Key: 'Config.Projects.Generation' Error:Field validation for 'Generation' failed on the 'min' tag")
    else ProjectError(ps, from + 1)
  }

  function ModuleError(ms: seq<Module>, from: nat): (r: Option<string>)
    requires from <= |ms|
    ensures r.None? <==> forall i :: from <= i < |ms| ==> ValidModule(ms[i])
    decreases |ms| - from
  {
    if from == |ms| then None
    else if !Util.IsCleanName(ms[from].name) then Some("Key: 'Config.Modules.Name' Error:Field validation for 'Name' failed on the 'cleanName' tag")
    else if ms[from].kind == "" then Some("Key: 'Config.Modules.Type' Error:Field validation for 'Type' failed on the 'required' tag")
    else ModuleError(ms, from + 1)
  }

  /** util.ValidateStruct on a Config: the first failing field is reported. */
  function Validate(c: Config): (r: Result<Config>)
    ensures r.Ok? <==> ValidConfig(c)
    ensures r.Ok? ==> r.value == c
  {
    match ProjectError(c.projects, 0)
    case Some(e) => Err(e)
    case None =>
      match ModuleError(c.modules, 0)
      case Some(e) => Err(e)
      case None => Ok(c)
  }

  // ---------------------------------------------------------------- decoding

  /** A `json.RawMessage` field: the last member with its name, null included. */
  function RawField(ms: Json.Members, field: string): (r: Json.Raw)
    ensures r.Absent? <==> forall i :: 0 <= i < |ms| ==> !Json.KeyMatches(ms[i].0, field)
    ensures r.Doc? ==> exists i :: 0 <= i < |ms| && Json.KeyMatches(ms[i].0, field) && ms[i].1 == r.doc
  {
    if |ms| == 0 then Json.Absent
    else
      var rest := RawField(ms[1..], field);
      assert forall i :: 1 <= i < |ms| ==> ms[i] == ms[1..][i - 1];
      if rest.Doc? then
        var k :| 0 <= k < |ms[1..]| && Json.KeyMatches(ms[1..][k].0, field) && ms[1..][k].1 == rest.doc;
        assert ms[k + 1] == ms[1..][k];
        rest
      else if Json.KeyMatches(ms[0].0, field) then Json.Doc(ms[0].1)
      else Json.Absent
  }

  function DecodeModule(ms: Json.Members): Result<Module> {
    var name :- Json.GetString(ms, "Name");
    var kind :- Json.GetString(ms, "Type");
    Ok(Module(name, kind, RawField(ms, "Config")))
  }

  function DecodeProject(ms: Json.Members): Result<Project> {
    var name :- Json.GetString(ms, "Name");
    var root :- Json.GetString(ms, "Root");
    var generation :- Json.GetInt(ms, "Generation");
    var modules :- Json.GetStrings(ms, "Modules");
    var scripts :- Json.GetStrings(ms, "script_subcommands");
    var disable :- Json.GetBool(ms, "disable_builtin_modules");
    Ok(Project(name, root, generation, modules, scripts, disable))
  }

  function DecodeModules(items: seq<Json.Members>): (r: Result<seq<Module>>)
    ensures r.Ok? ==> |r.value| == |items|
  {
    if |items| == 0 then Ok([])
    else
      var m :- DecodeModule(items[0]);
      var rest :- DecodeModules(items[1..]);
      Ok([m] + rest)
  }

  function DecodeProjects(items: seq<Json.Members>): (r: Result<seq<Project>>)
    ensures r.Ok? ==> |r.value| == |items|
  {
    if |items| == 0 then Ok([])
    else
      var p :- DecodeProject(items[0]);
      var rest :- DecodeProjects(items[1..]);
      Ok([p] + rest)
  }

  /** json.Unmarshal of the converted configuration into a `Config`. */
  function DecodeConfig(j: Json.Json): Result<Config> {
    var ms :- Json.Unmarshal(j, "venvy.Config");
    var pms :- Json.GetObjects(ms, "Projects");
    var mms :- Json.GetObjects(ms, "Modules");
    var projects :- DecodeProjects(pms);
    var modules :- DecodeModules(mms);
    Ok(Config(projects, modules))
  }

  /** The JSON object a module declaration is written as. */
  function ModuleJson(m: Module): Json.Json {
    Json.Obj([("Name", Json.Str(m.name)), ("Type", Json.Str(m.kind))]
             + (if m.config.Doc? then [("Config", m.config.doc)] else []))
  }

  /** A declaration written as JSON decodes back to itself. */
  lemma DecodeModuleJson(m: Module)
    ensures DecodeModule(ModuleJson(m).members) == Ok(m)
  {
    var ms := ModuleJson(m).members;
    ModuleJsonStrings(m);
    assert RawField(ms, "Config") == m.config by {
      ModuleJsonConfig(m);
    }
  }

  /** The name and the type of a declaration written as JSON read back as they were. */
  lemma ModuleJsonStrings(m: Module)
    ensures Json.GetString(ModuleJson(m).members, "Name") == Ok(m.name)
    ensures Json.GetString(ModuleJson(m).members, "Type") == Ok(m.kind)
  {
    var n := [("Name", Json.Str(m.name))];
    var t := [("Type", Json.Str(m.kind))];
    var c: Json.Members := if m.config.Doc? then [("Config", m.config.doc)] else [];
    var ms := ModuleJson(m).members;
    assert ms == n + t + c;
    assert Json.Values(ms, "Name") == [Json.Str(m.name)] by {
      Json.KeyMismatch("Type", "Name");
      Json.KeyMismatch("Config", "Name");
      Json.ValuesAppend(n + t, c, "Name");
      Json.ValuesAppend(n, t, "Name");
    }
    assert Json.Values(ms, "Type") == [Json.Str(m.kind)] by {
      Json.KeyMismatch("Name", "Type");
      Json.KeyMismatch("Config", "Type");
      Json.ValuesAppend(n + t, c, "Type");
      Json.ValuesAppend(n, t, "Type");
    }
    Json.GetStringOnce(ms, "Name", m.name);
    Json.GetStringOnce(ms, "Type", m.kind);
  }

  /** The `config` of a declaration written as JSON reads back as it was, absent when it was absent. */
  lemma ModuleJsonConfig(m: Module)
    ensures RawField(ModuleJson(m).members, "Config") == m.config
  {
    var ms := ModuleJson(m).members;
    Json.KeyMismatch("Name", "Config");
    Json.KeyMismatch("Type", "Config");
    assert ms[0].0 == "Name" && ms[1].0 == "Type";
    if m.config.Doc? {
      var c := [("Config", m.config.doc)];
      assert ms[1..][1..] == c && c[1..] == [];
      assert Json.KeyMatches("Config", "Config");
      assert RawField(c, "Config") == m.config;
      assert RawField(ms[1..], "Config") == m.config;
    } else {
      assert ms[1..][1..] == [];
      assert RawField(ms[1..], "Config") == Json.Absent;
    }
  }
}
