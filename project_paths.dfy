/**
 * The path arithmetic of manager/project_manager.go: where a project's root directory
 * is, how paths inside it are formed, and where its data lives.  `Ctx` is what the
 * capability units read from their project manager.
 */
module ProjectPaths {
  import Paths
  import DataManagers

  /**
   * The project manager as the units see it: the project's name and `Root` setting, the
   * path of the configuration file that declared it, and its storage directory.
   */
  datatype Ctx = Ctx(projectName: string, configPath: string, root: string, storageDir: string)

  /**
   * `RootDir`: the directory of the configuration file when `Root` is empty, `Root` itself
   * when it is absolute, and `Root` relative to the configuration file's directory otherwise.
   */
  function RootDir(ctx: Ctx): (r: string)
    ensures r != ""
    ensures Paths.IsAbs(ctx.configPath) ==> Paths.IsAbs(r)
    ensures ctx.root == "" ==> r == Paths.Clean(Paths.Dir(ctx.configPath))
    ensures Paths.IsAbs(ctx.root) ==> r == ctx.root
    ensures ctx.root != "" && !Paths.IsAbs(ctx.root) ==> r == Paths.Join([Paths.Dir(ctx.configPath), ctx.root])
  {
    var configDir := Paths.Dir(ctx.configPath);
    AbsoluteConfigDir(ctx.configPath);
    if ctx.root == "" then
      Paths.CleanKeepsAbs(configDir);
      Paths.Clean(configDir)
    else if Paths.IsAbs(ctx.root) then ctx.root
    else
      JoinOntoAbsolute([configDir, ctx.root]);
      assert [configDir, ctx.root][1] != "";
      Paths.Join([configDir, ctx.root])
  }

  /** `RootPath(elem...)`: a single absolute element is returned as it is; otherwise the elements are joined onto the root. */
  function RootPath(ctx: Ctx, elems: seq<string>): (r: string)
    ensures |elems| == 1 && Paths.IsAbs(elems[0]) ==> r == elems[0]
    ensures !(|elems| == 1 && Paths.IsAbs(elems[0])) ==> r == Paths.Join([RootDir(ctx)] + elems)
    ensures Paths.IsAbs(ctx.configPath) ==> Paths.IsAbs(r)
  {
    if |elems| == 1 && Paths.IsAbs(elems[0]) then elems[0]
    else
      JoinOntoAbsolute([RootDir(ctx)] + elems);
      Paths.Join([RootDir(ctx)] + elems)
  }

  lemma AbsoluteConfigDir(configPath: string)
    ensures Paths.IsAbs(configPath) ==> Paths.IsAbs(Paths.Dir(configPath))
  {
    if Paths.IsAbs(configPath) {
      Paths.DirKeepsAbs(configPath);
    }
  }

  lemma JoinOntoAbsolute(elems: seq<string>)
    requires |elems| > 0
    ensures Paths.IsAbs(elems[0]) ==> Paths.IsAbs(Paths.Join(elems))
  {
    if Paths.IsAbs(elems[0]) {
      Paths.JoinKeepsAbs(elems);
    }
  }

  /**
   * `ResolveRootPath`: an absolute path stands, a relative one is taken from the root; the
   * same as `RootPath` of that one path, whatever the path.
   */
  function ResolveRootPath(ctx: Ctx, p: string): (r: string)
    ensures r == RootPath(ctx, [p])
    ensures Paths.IsAbs(ctx.configPath) ==> Paths.IsAbs(r)
  {
    if !Paths.IsAbs(p) then RootPath(ctx, [p]) else p
  }

  /** `StoragePath` of the project manager's own data manager: absolute below an absolute storage directory. */
  function StoragePath(ctx: Ctx, elems: seq<string>): (r: string)
    ensures Paths.IsAbs(ctx.storageDir) ==> Paths.IsAbs(r)
  {
    DataManagers.StoragePath(ctx.storageDir, elems)
  }

  /** Resolving a path is the same as `RootPath` of that one path, whatever the path. */
  lemma ResolveIsRootPath(ctx: Ctx, p: string)
    ensures ResolveRootPath(ctx, p) == RootPath(ctx, [p])
  {
  }

  /** With the configuration file at an absolute path, every resolved path is absolute. */
  lemma ResolvedAbsolute(ctx: Ctx, p: string)
    requires Paths.IsAbs(ctx.configPath)
    ensures Paths.IsAbs(ResolveRootPath(ctx, p))
  {
    ResolveIsRootPath(ctx, p);
  }
}
