/**
 * config_loader.go, the older loader.  Its `foundConfig` with `Config()` and `Scripts()`,
 * `extractScript`, the docstring scan and the script cache are those of cli_loader.go and
 * are modelled by the `Loader` module; what differs is configuration discovery: git is
 * asked for two listings only and its lines are not de-duplicated, the history is always
 * read, and it is written only when `saveInHistory` is set.
 */
module LegacyLoader {
  import opened Wrappers
  import Json
  import World
  import Util
  import Paths
  import Loader

  /** The two `git ls-files` runs of the older loader: untracked files, then with submodules. */
  function Listings(w: World.World): seq<Option<string>> {
    [w.git.others, w.git.recurse]
  }

  /** `configPathsFromGit`: every listed configuration of both runs, repeats kept. */
  function GitConfigs(w: World.World): seq<Loader.Found> {
    match Util.FindPathInAncestors(w, "", ".git")
    case Err(_) => []
    case Ok(root) => Loader.Flatten(Loader.GitGroups(root, Listings(w)))
  }

  /** The loops of `configPathsFromGit`, without a `seenPaths` set. */
  method ConfigPathsFromGit(w: World.World) returns (paths: seq<Loader.Found>)
    ensures paths == GitConfigs(w)
  {
    paths := [];
    var gitRoot := Util.FindPathInAncestors(w, "", ".git");
    if gitRoot.Err? {
      return;
    }
    var root := gitRoot.value;
    var outs := Listings(w);
    ghost var groups := Loader.GitGroups(root, outs);
    for g := 0 to |outs|
      invariant paths == Loader.Flatten(groups[..g])
    {
      assert groups[..g + 1][..g] == groups[..g];
      if outs[g].Some? {
        paths := AppendListed(root, Loader.ListedLines(outs[g].value), paths);
      }
    }
    assert groups[..|groups|] == groups;
  }

  /** The line loop of one listing: each line naming a configuration is appended, repeats too. */
  method AppendListed(root: string, lines: seq<string>, paths: seq<Loader.Found>) returns (paths': seq<Loader.Found>)
    ensures paths' == paths + Loader.Matching(root, lines)
  {
    paths' := paths;
    for i := 0 to |lines|
      invariant paths' == paths + Loader.Matching(root, lines[..i])
    {
      assert lines[..i + 1][..i] == lines[..i];
      if Loader.Names(lines[i]) {
        paths' := paths' + [Loader.Found(Paths.Join([root, lines[i]]), Loader.DotDir(root), None)];
      }
    }
    assert lines[..|lines|] == lines;
  }

  /** The configurations the older `LoadConfigs` returns: git's, the working directory's, the history's, first of each path kept. */
  function Configs(w: World.World): seq<Loader.Found> {
    Loader.Unique(Loader.Joined(GitConfigs(w), Loader.PwdConfigs(w), Loader.HistoryConfigs(w), true))
  }

  /** The files after the older `LoadConfigs`: the history is overwritten only when saving. */
  function HistoryFiles(w: World.World, saveInHistory: bool, configs: seq<Loader.Found>): map<string, string> {
    if saveInHistory then w.files[Loader.SeenConfigsPath(w) := Json.Encode(Loader.HistoryJson(configs))] else w.files
  }

  /** The older `LoadConfigs`, without the prefetch goroutines. */
  method LoadConfigs(w: World.World, saveInHistory: bool) returns (configs: seq<Loader.Found>, files: map<string, string>)
    ensures configs == Configs(w)
    ensures files == HistoryFiles(w, saveInHistory, configs)
  {
    var fromGit := ConfigPathsFromGit(w);
    var fromPwd := Loader.PwdConfigs(w);
    var fromHistory := Loader.HistoryConfigs(w);
    var allDiscovered := [fromGit, fromPwd] + [fromHistory];
    Loader.FlattenOf(fromGit, fromPwd, fromHistory, true);
    configs := Loader.Dedupe(allDiscovered);
    files := w.files;
    if saveInHistory {
      files := files[Loader.SeenConfigsPath(w) := Json.Encode(Loader.HistoryJson(configs))];
    }
  }

  /**
   * The older `LoadConfigs` reads the history whatever `saveInHistory` says: every path
   * of git, the working directory and the history is returned, once.
   */
  lemma ConfigsUnique(w: World.World)
    ensures Loader.DistinctPaths(Configs(w))
    ensures Loader.PathSet(Configs(w)) ==
            Loader.PathSet(GitConfigs(w)) + Loader.PathSet(Loader.PwdConfigs(w)) + Loader.PathSet(Loader.HistoryConfigs(w))
  {
    Loader.JoinedUnique(GitConfigs(w), Loader.PwdConfigs(w), Loader.HistoryConfigs(w), true);
  }

  /** De-duplicating a prefix first changes nothing once the whole list is de-duplicated. */
  lemma {:induction false} UniqueUnique(xs: seq<Loader.Found>, ys: seq<Loader.Found>)
    ensures Loader.Unique(Loader.Unique(xs) + ys) == Loader.Unique(xs + ys)
    decreases |ys|
  {
    var u := Loader.Unique(xs);
    Loader.UniqueProps(xs);
    if |ys| == 0 {
      Loader.UniqueFresh([], u);
      assert [] + u == u && u + ys == u && xs + ys == xs;
    } else {
      var init := ys[..|ys| - 1];
      var y := ys[|ys| - 1];
      UniqueUnique(xs, init);
      assert u + ys == (u + init) + [y];
      assert xs + ys == (xs + init) + [y];
      Loader.UniqueSnoc(u + init, y);
      Loader.UniqueSnoc(xs + init, y);
      Loader.PathSetAppend(u, init);
      Loader.PathSetAppend(xs, init);
    }
  }

  /** Without output from the third run, the newer loader's git groups flatten to the older loader's. */
  lemma FlattenWithoutPlain(root: string, others: Option<string>, recurse: Option<string>)
    ensures Loader.Flatten(Loader.GitGroups(root, [others, recurse, None])) == Loader.Flatten(Loader.GitGroups(root, [others, recurse]))
  {
    var g3 := Loader.GitGroups(root, [others, recurse, None]);
    var g2 := Loader.GitGroups(root, [others, recurse]);
    assert g3[..2] == g2;
    assert g3[2] == [];
  }

  /** Git's list de-duplicated first or not, `LoadConfigs` returns the same. */
  lemma JoinedUniqueGit(git: seq<Loader.Found>, pwd: seq<Loader.Found>, history: seq<Loader.Found>)
    ensures Loader.Unique(Loader.Joined(Loader.Unique(git), pwd, history, true)) == Loader.Unique(Loader.Joined(git, pwd, history, true))
  {
    UniqueUnique(git, pwd + history);
    assert Loader.Joined(git, pwd, history, true) == git + (pwd + history);
    assert Loader.Joined(Loader.Unique(git), pwd, history, true) == Loader.Unique(git) + (pwd + history);
  }

  /**
   * Without the third listing the older loader agrees with the newer one using history:
   * the de-duplication the newer `configPathsFromGit` adds makes no difference after
   * `LoadConfigs` de-duplicates everything.
   */
  lemma AgreesWithNewer(w: World.World)
    requires w.git.plain.None?
    ensures Configs(w) == Loader.Configs(w, true)
  {
    match Util.FindPathInAncestors(w, "", ".git")
    case Err(_) =>
    case Ok(root) =>
      FlattenWithoutPlain(root, w.git.others, w.git.recurse);
      assert Loader.GitConfigs(w) == Loader.Unique(GitConfigs(w));
      JoinedUniqueGit(GitConfigs(w), Loader.PwdConfigs(w), Loader.HistoryConfigs(w));
  }
}
