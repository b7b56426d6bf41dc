/**
 * modules/jump.go: the `jump` unit.  Activation changes to the project directory (or the
 * configured one); deactivation changes back to the directory the process was started
 * in, unless jumping back is switched off or that directory could not be read.
 */
module Jump {
  import opened Wrappers
  import Json
  import Util
  import World
  import ProjectPaths

  datatype Config = Config(toDir: string, disableJumpBack: bool)

  /** The unit: its configuration and the working directory seen when it was made. */
  datatype Unit = Unit(config: Config, lastDir: string)

  function Decode(raw: Json.Raw): (r: Result<Config>)
    ensures raw.Absent? ==> r == Ok(Config("", false))
  {
    var ms :- Util.UnmarshalEmpty(raw, "modules.JumpConfig");
    var toDir :- Json.GetString(ms, "ToDir");
    var disable :- Json.GetBool(ms, "DisableJumpBack");
    Ok(Config(toDir, disable))
  }

  /** The working directory as `os.Getwd` reports it, with "" for an error. */
  function StartDir(w: World.World): (r: string)
    ensures World.Getwd(w).Ok? ==> r == World.Getwd(w).value
    ensures World.Getwd(w).Err? ==> r == ""
  {
    match World.Getwd(w)
    case Ok(d) => d
    case Err(_) => ""
  }

  /** `NewJumpModule`: the payload decoded, `ToDir` defaulting to the project's root directory. */
  function New(ctx: ProjectPaths.Ctx, w: World.World, raw: Json.Raw): (r: Result<Unit>)
    ensures r.Ok? <==> Decode(raw).Ok?
    ensures r.Ok? ==> r.value.lastDir == StartDir(w)
    ensures r.Ok? ==> r.value.config.disableJumpBack == Decode(raw).value.disableJumpBack
    ensures r.Ok? ==> r.value.config.toDir == (if Decode(raw).value.toDir == "" then ProjectPaths.RootDir(ctx)
                                               else Decode(raw).value.toDir)
    ensures r.Ok? ==> r.value.config.toDir != ""
  {
    var lastDir := StartDir(w);
    var c :- Decode(raw);
    Ok(Unit(Config(if c.toDir == "" then ProjectPaths.RootDir(ctx) else c.toDir, c.disableJumpBack), lastDir))
  }

  /** One line: change to the unit's target directory. */
  function Activation(u: Unit): (r: seq<string>)
    ensures |r| == 1 && r[0] == "cd " + u.config.toDir
  {
    ["cd " + u.config.toDir]
  }

  /** Change back to the start directory when it is known and jumping back is on; nothing otherwise. */
  function Deactivation(u: Unit): (r: seq<string>)
    ensures |r| <= 1
    ensures |r| == 1 <==> u.lastDir != "" && !u.config.disableJumpBack
    ensures |r| == 1 ==> r[0] == "cd " + u.lastDir
  {
    if u.lastDir != "" && !u.config.disableJumpBack then ["cd " + u.lastDir] else []
  }

  /**
   * For every payload that decodes, the unit goes to the configured directory (the
   * project root when none is set) and, when the working directory was readable and not
   * empty and jumping back is on, comes back to it.
   */
  lemma ThereAndBack(ctx: ProjectPaths.Ctx, w: World.World, raw: Json.Raw)
    requires Decode(raw).Ok?
    ensures New(ctx, w, raw).Ok?
    ensures var c := Decode(raw).value;
            Activation(New(ctx, w, raw).value) == ["cd " + (if c.toDir == "" then ProjectPaths.RootDir(ctx) else c.toDir)]
    ensures var c := Decode(raw).value;
            Deactivation(New(ctx, w, raw).value) == (if StartDir(w) != "" && !c.disableJumpBack then ["cd " + StartDir(w)] else [])
  {
  }

  /** With no payload the unit goes to the project root and comes back whenever the start directory is known. */
  lemma ThereAndBackByDefault(ctx: ProjectPaths.Ctx, w: World.World)
    ensures New(ctx, w, Json.Absent).Ok?
    ensures Activation(New(ctx, w, Json.Absent).value) == ["cd " + ProjectPaths.RootDir(ctx)]
    ensures Deactivation(New(ctx, w, Json.Absent).value) == (if StartDir(w) != "" then ["cd " + StartDir(w)] else [])
  {
    ThereAndBack(ctx, w, Json.Absent);
  }
}
