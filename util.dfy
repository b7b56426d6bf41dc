/**
 * util/util.go: the ancestor search, `UnmarshalEmpty` and the clean-name pattern.
 * (The older root-level util.go is the same code under lower-case names.)
 */
module Util {
  import opened Wrappers
  import Json
  import Paths
  import World

  /** A character `[a-z0-9_\-]` admits. */
  predicate CleanChar(c: char) {
    ('a' <= c <= 'z') || ('0' <= c <= '9') || c == '_' || c == '-'
  }

  /** CleanNameRe, `^[a-z0-9_\-]+$`: a non-empty run of clean characters and nothing else. */
  predicate IsCleanName(s: string)
    ensures IsCleanName(s) ==> s != "" && '/' !in s && '.' !in s
  {
    |s| > 0 && forall i :: 0 <= i < |s| ==> CleanChar(s[i])
  }

  /**
   * UnmarshalEmpty: no bytes leave the target as it was (no members to apply); otherwise
   * the bytes are decoded as JSON into the struct.
   */
  function UnmarshalEmpty(raw: Json.Raw, structName: string): (r: Result<Json.Members>)
    ensures raw.Absent? ==> r == Ok([])
    ensures raw.Doc? ==> r == Json.Unmarshal(raw.doc, structName)
  {
    match raw
    case Absent => Ok([])
    case Doc(j) => Json.Unmarshal(j, structName)
  }

  /** Measure for the walk up the tree: "." is the bottom, every other path weighs its length plus two. */
  function Height(p: string): nat {
    if p == "." then 0 else |p| + 2
  }

  lemma DirLower(p: string)
    requires p != "/" && p != "."
    ensures Height(Paths.Dir(p)) < Height(p)
  {
    if p != "" {
      Paths.DirShortens(p);
    }
  }

  /** The directories the search visits from `start`: itself, then each parent, ending at "/" or ".". */
  function Ancestors(start: string): (r: seq<string>)
    ensures |r| >= 1 && r[0] == start
    ensures r[|r| - 1] == "/" || r[|r| - 1] == "."
    ensures forall i :: 0 <= i < |r| - 1 ==> r[i] != "/" && r[i] != "." && r[i + 1] == Paths.Dir(r[i])
    decreases Height(start)
  {
    if start == "/" || start == "." then [start]
    else
      DirLower(start);
      [start] + Ancestors(Paths.Dir(start))
  }

  function Search(w: World.World, start: string, target: string): Result<string>
    decreases Height(start)
  {
    if World.PathExists(w, Paths.Join([start, target])) then Ok(start)
    else if start == "/" || start == "." then Err("not found")
    else
      DirLower(start);
      Search(w, Paths.Dir(start), target)
  }

  /**
   * FindPathInAncestors: an empty `start` means the working directory.  The result is the
   * nearest directory, from the start upwards, that holds `target`.
   */
  function FindPathInAncestors(w: World.World, start: string, target: string): (r: Result<string>)
    ensures start == "" && World.Getwd(w).Err? ==> r == Err(World.Getwd(w).msg)
    ensures start != "" || World.Getwd(w).Ok? ==>
              var from := if start == "" then World.Getwd(w).value else start;
              r == match Nearest(w, Ancestors(from), target)
                   case Some(d) => Ok(d)
                   case None => Err("not found")
  {
    if start == "" then
      match World.Getwd(w)
      case Ok(d) => SearchFindsNearest(w, d, target); Search(w, d, target)
      case Err(e) => Err(e)
    else SearchFindsNearest(w, start, target); Search(w, start, target)
  }

  predicate HasTarget(w: World.World, dir: string, target: string) {
    World.PathExists(w, Paths.Join([dir, target]))
  }

  /** The first directory of `dirs` that holds `target`. */
  function Nearest(w: World.World, dirs: seq<string>, target: string): (r: Option<string>)
    ensures r.Some? ==> exists k :: 0 <= k < |dirs| && dirs[k] == r.value && HasTarget(w, r.value, target)
                          && forall j :: 0 <= j < k ==> !HasTarget(w, dirs[j], target)
    ensures r.None? <==> forall j :: 0 <= j < |dirs| ==> !HasTarget(w, dirs[j], target)
  {
    if |dirs| == 0 then None
    else if HasTarget(w, dirs[0], target) then Some(dirs[0])
    else
      var r := Nearest(w, dirs[1..], target);
      assert forall j :: 1 <= j < |dirs| ==> dirs[j] == dirs[1..][j - 1];
      if r.Some? then
        var k :| 0 <= k < |dirs[1..]| && dirs[1..][k] == r.value && HasTarget(w, r.value, target)
                 && forall j :: 0 <= j < k ==> !HasTarget(w, dirs[1..][j], target);
        assert dirs[k + 1] == r.value;
        r
      else r
  }

  /**
   * The search returns the nearest of `start` and its ancestors that holds `target`, and
   * fails with "not found" when none of them does.
   */
  lemma {:induction false} SearchFindsNearest(w: World.World, start: string, target: string)
    ensures Search(w, start, target) ==
            match Nearest(w, Ancestors(start), target)
            case Some(d) => Ok(d)
            case None => Err("not found")
    decreases Height(start)
  {
    if !HasTarget(w, start, target) && start != "/" && start != "." {
      DirLower(start);
      SearchFindsNearest(w, Paths.Dir(start), target);
      assert Ancestors(start)[1..] == Ancestors(Paths.Dir(start));
    }
  }

  /** Starting from an absolute directory, every directory visited is absolute. */
  lemma {:induction false} AncestorsOfAbsolute(start: string)
    requires Paths.IsAbs(start)
    ensures forall i :: 0 <= i < |Ancestors(start)| ==> Paths.IsAbs(Ancestors(start)[i])
    decreases Height(start)
  {
    if start != "/" && start != "." {
      DirLower(start);
      Paths.DirKeepsAbs(start);
      AncestorsOfAbsolute(Paths.Dir(start));
      var chain := Ancestors(start);
      var sub := Ancestors(Paths.Dir(start));
      assert chain == [start] + sub;
      forall i | 0 <= i < |chain|
        ensures Paths.IsAbs(chain[i])
      {
        if i > 0 {
          assert chain[i] == sub[i - 1];
        }
      }
    }
  }

  /** The search looks at nothing but `os.Stat`. */
  lemma {:induction false} SearchFramed(w: World.World, w': World.World, start: string, target: string)
    requires w.stat == w'.stat
    ensures Search(w, start, target) == Search(w', start, target)
    decreases Height(start)
  {
    if !HasTarget(w, start, target) && start != "/" && start != "." {
      DirLower(start);
      SearchFramed(w, w', Paths.Dir(start), target);
    }
  }
}
