/**
 * The path arithmetic of the older project_manager.go: `StoragePath`, `RootDir` and
 * `RootPath`.  Unlike the newer manager, every root is cleaned and `RootPath` always
 * joins its elements onto the root, an absolute element included.
 */
module LegacyPaths {
  import Paths
  import Strs
  import ProjectPaths

  /**
   * What the older units read from their project manager: the active project's name and
   * `Root`, the configuration file's path and the storage root.
   */
  datatype Ctx = Ctx(projectName: string, configPath: string, root: string, storageRoot: string)

  /** `StoragePath(elem...)`: the storage root, the project's name and the elements, joined and cleaned. */
  function StoragePath(ctx: Ctx, elems: seq<string>): (r: string)
    ensures r != ""
    ensures Paths.IsAbs(ctx.storageRoot) ==> Paths.IsAbs(r)
  {
    var joined := Paths.Join([ctx.storageRoot, ctx.projectName] + elems);
    ProjectPaths.JoinOntoAbsolute([ctx.storageRoot, ctx.projectName] + elems);
    Paths.CleanKeepsAbs(joined);
    Paths.Clean(joined)
  }

  /**
   * `RootDir`: the configuration file's directory when `Root` is empty, `Root` when it is
   * absolute, `Root` below the configuration file's directory otherwise; cleaned in every case.
   */
  function RootDir(ctx: Ctx): (r: string)
    ensures r != ""
    ensures Paths.IsAbs(ctx.configPath) || Paths.IsAbs(ctx.root) ==> Paths.IsAbs(r)
  {
    var configDir := Paths.Dir(ctx.configPath);
    var projectRoot :=
      if ctx.root == "" then configDir
      else if Paths.IsAbs(ctx.root) then ctx.root
      else Paths.Join([configDir, ctx.root]);
    ProjectPaths.AbsoluteConfigDir(ctx.configPath);
    ProjectPaths.JoinOntoAbsolute([configDir, ctx.root]);
    assert ctx.root != "" ==> [configDir, ctx.root][1] != "";
    Paths.CleanKeepsAbs(projectRoot);
    Paths.Clean(projectRoot)
  }

  /** `RootPath(elem...)`: the elements joined onto the root directory. */
  function RootPath(ctx: Ctx, elems: seq<string>): (r: string)
    ensures Paths.IsAbs(ctx.configPath) || Paths.IsAbs(ctx.root) ==> Paths.IsAbs(r)
  {
    ProjectPaths.JoinOntoAbsolute([RootDir(ctx)] + elems);
    Paths.Join([RootDir(ctx)] + elems)
  }

  /**
   * An absolute element is not left alone: `RootPath` puts it below the root directory
   * exactly where the same element without its leading '/' goes.
   */
  lemma RootPathNestsEveryAbsolute(ctx: Ctx, t: string)
    ensures RootPath(ctx, ["/" + t]) == RootPath(ctx, [t])
  {
    var r := RootDir(ctx);
    assert [r] + ["/" + t] == [r, "/" + t] && [r] + [t] == [r, t];
    assert [r, "/" + t][1..] == ["/" + t] && [r, t][1..] == [t];
    assert Strs.Join([r, "/" + t], "/") == r + "/" + "/" + t;
    Paths.CleanDoubledSeparator(r, t);
    if t != "" {
      assert Strs.Join([r, t], "/") == r + "/" + t;
    } else {
      assert Strs.Join([r, t], "/") == r + "/" + t;
    }
  }

  /** The newer manager's view of the same project, with the storage root as its storage directory. */
  function Newer(ctx: Ctx): ProjectPaths.Ctx {
    ProjectPaths.Ctx(ctx.projectName, ctx.configPath, ctx.root, ctx.storageRoot)
  }

  /**
   * The older root is the newer one cleaned: the two generations agree up to `Clean`, and
   * exactly when `Root` is empty.
   */
  lemma RootDirAgrees(ctx: Ctx)
    ensures ctx.root == "" ==> RootDir(ctx) == ProjectPaths.RootDir(Newer(ctx))
    ensures ctx.root != "" ==> RootDir(ctx) == Paths.Clean(ProjectPaths.RootDir(Newer(ctx)))
  {
  }

  /** A single segment: not empty, no '/', neither "." nor "..". */
  predicate Segment(s: string) {
    s != "" && s != "." && s != ".." && '/' !in s
  }

  /** A root of one segment is already clean. */
  lemma CleanRooted(a: string)
    requires Segment(a)
    ensures Paths.Clean("/" + a) == "/" + a
  {
    var segs := ["", a];
    assert Strs.Join(segs, "/") == "/" + a by { assert segs[1..] == [a]; }
    Strs.JoinSplit(segs, '/');
    assert segs[..1] == [""];
    assert segs[..1][..0] == [];
    assert Paths.Resolve(segs[..1], true) == [];
    assert Paths.Resolve(segs, true) == Paths.Step([], a, true) == [a];
  }

  /** Joining an absolute one-segment path onto another puts it below the first. */
  lemma JoinRooted(a: string, b: string)
    requires Segment(a) && Segment(b)
    ensures Paths.Join(["/" + a, "/" + b]) == "/" + a + "/" + b
  {
    var segs := ["", a, "", b];
    var text := "/" + a + "/" + "/" + b;
    RootedText(a, b);
    assert Paths.Join(["/" + a, "/" + b]) == Paths.Clean(text);
    Strs.JoinSplit(segs, '/');
    assert Strs.Split(text, '/') == segs;
    RootedSegments(a, b);
    assert Paths.Clean(text) == Paths.Render([a, b], true);
    assert Strs.Join([a, b], "/") == a + "/" + b by { assert [a, b][1..] == [b]; }
  }

  /** The joined text of two rooted segments, split at '/', is: empty, the first, empty, the second. */
  lemma RootedText(a: string, b: string)
    ensures Strs.Join(["/" + a, "/" + b], "/") == "/" + a + "/" + "/" + b
    ensures Strs.Join(["", a, "", b], "/") == "/" + a + "/" + "/" + b
  {
    assert ["/" + a, "/" + b][1..] == ["/" + b];
    var segs := ["", a, "", b];
    assert segs[1..] == [a, "", b];
    assert segs[1..][1..] == ["", b];
    assert segs[1..][1..][1..] == [b];
    assert Strs.Join(["", b], "/") == "/" + b;
    assert Strs.Join([a, "", b], "/") == a + "/" + "/" + b;
  }

  /** Cleaning the rooted segments drops the empty ones and keeps the two names. */
  lemma RootedSegments(a: string, b: string)
    requires Segment(a) && Segment(b)
    ensures Paths.Resolve(["", a, "", b], true) == [a, b]
  {
    var segs := ["", a, "", b];
    assert segs[..3] == ["", a, ""] && segs[..3][..2] == ["", a] && segs[..3][..2][..1] == [""];
    assert segs[..3][..2][..1][..0] == [];
    assert Paths.Resolve(segs[..3][..2][..1], true) == [];
    assert Paths.Resolve(segs[..3][..2], true) == [a];
    assert Paths.Resolve(segs[..3], true) == [a];
  }

  /**
   * `RootPath` does not leave an absolute element alone: below a root `/a`, the path `/b`
   * becomes `/a/b` (the newer `RootPath` returns `/b`).
   */
  lemma RootPathNestsAbsolute(ctx: Ctx, a: string, b: string)
    requires Segment(a) && Segment(b) && ctx.root == "/" + a
    ensures RootPath(ctx, ["/" + b]) == "/" + a + "/" + b
    ensures RootPath(ctx, ["/" + b]) != "/" + b
    ensures ProjectPaths.RootPath(Newer(ctx), ["/" + b]) == "/" + b
  {
    CleanRooted(a);
    assert RootDir(ctx) == "/" + a;
    assert [RootDir(ctx)] + ["/" + b] == ["/" + a, "/" + b];
    JoinRooted(a, b);
    assert |"/" + a + "/" + b| > |"/" + b|;
  }
}
