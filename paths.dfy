/**
 * Go's `path` package (and `path/filepath` on a Unix host) as far as the core uses it:
 * `IsAbs`, `Clean`, `Join`, `Dir` and `Ext`.  `Clean` works on the '/'-separated
 * segments exactly as the Go routine does: empty and "." segments vanish, ".." removes
 * the previous real segment, and a ".." that has nothing to remove is kept in a relative
 * path and dropped at the root.
 */
module Paths {
  import Strs

  predicate IsAbs(p: string) {
    |p| > 0 && p[0] == '/'
  }

  /** Total length of the segments, one separator counted per segment. */
  function Weight(segs: seq<string>): nat {
    if |segs| == 0 then 0 else |segs[0]| + 1 + Weight(segs[1..])
  }

  /** The same, with empty segments (those of "//", a leading or a trailing '/') counted as 0. */
  function SolidWeight(segs: seq<string>): nat {
    if |segs| == 0 then 0 else (if segs[0] == "" then 0 else |segs[0]| + 1) + SolidWeight(segs[1..])
  }

  /** One step of the stack machine inside path.Clean. */
  function Step(stack: seq<string>, seg: string, rooted: bool): seq<string> {
    if seg == "" || seg == "." then stack
    else if seg == ".." then
      if |stack| > 0 && stack[|stack| - 1] != ".." then stack[..|stack| - 1]
      else if rooted then stack
      else stack + [".."]
    else stack + [seg]
  }

  /** The segments left after processing `segs` from left to right. */
  function Resolve(segs: seq<string>, rooted: bool): seq<string> {
    if |segs| == 0 then [] else Step(Resolve(segs[..|segs| - 1], rooted), segs[|segs| - 1], rooted)
  }

  function Render(stack: seq<string>, rooted: bool): string {
    if rooted then "/" + Strs.Join(stack, "/")
    else if |stack| == 0 then "."
    else Strs.Join(stack, "/")
  }

  /** path.Clean */
  function Clean(p: string): string {
    if p == "" then "."
    else Render(Resolve(Strs.Split(p, '/'), p[0] == '/'), p[0] == '/')
  }

  /** path.Join: the empty elements are ignored; all of them empty gives "". */
  function Join(elems: seq<string>): (r: string)
    ensures (forall i :: 0 <= i < |elems| ==> elems[i] == "") <==> r == ""
  {
    if |elems| == 0 then ""
    else if elems[0] != "" then CleanKeepsAbs(Strs.Join(elems, "/")); Clean(Strs.Join(elems, "/"))
    else Join(elems[1..])
  }

  /** Index of the last '/', or -1. */
  function LastSlash(p: string): (i: int)
    ensures -1 <= i < |p|
    ensures i >= 0 ==> p[i] == '/'
    ensures forall k :: i < k < |p| ==> p[k] != '/'
  {
    if |p| == 0 then -1
    else if p[|p| - 1] == '/' then |p| - 1
    else LastSlash(p[..|p| - 1])
  }

  /** path.Dir */
  function Dir(p: string): string {
    var i := LastSlash(p);
    Clean(p[..i + 1])
  }

  /** filepath.Ext: from the last '.' of the final element, or "" when it has none. */
  function Ext(p: string): (r: string)
    ensures r == "" || (r[0] == '.' && Strs.HasSuffix(p, r) && '/' !in r)
  {
    if |p| == 0 || p[|p| - 1] == '/' then ""
    else if p[|p| - 1] == '.' then "."
    else
      var e := Ext(p[..|p| - 1]);
      if e == "" then "" else e + [p[|p| - 1]]
  }

  // ---------------------------------------------------------------- lemmas

  lemma {:induction false} WeightAppend(xs: seq<string>, ys: seq<string>)
    ensures Weight(xs + ys) == Weight(xs) + Weight(ys)
    decreases |xs|
  {
    if |xs| == 0 {
      assert xs + ys == ys;
    } else {
      assert (xs + ys)[1..] == xs[1..] + ys;
      WeightAppend(xs[1..], ys);
    }
  }

  lemma {:induction false} SolidWeightAppend(xs: seq<string>, ys: seq<string>)
    ensures SolidWeight(xs + ys) == SolidWeight(xs) + SolidWeight(ys)
    decreases |xs|
  {
    if |xs| == 0 {
      assert xs + ys == ys;
    } else {
      assert (xs + ys)[1..] == xs[1..] + ys;
      SolidWeightAppend(xs[1..], ys);
    }
  }

  /** The pieces of a split weigh one more than the string. */
  lemma {:induction false} SplitWeight(s: string, c: char)
    ensures Weight(Strs.Split(s, c)) == |s| + 1
    decreases |s|
  {
    if |s| > 0 {
      var rest := Strs.Split(s[1..], c);
      SplitWeight(s[1..], c);
      if s[0] == c {
        assert Strs.Split(s, c) == [""] + rest;
        assert ([""] + rest)[1..] == rest;
      } else {
        var r := Strs.Split(s, c);
        assert r[1..] == rest[1..];
        assert Weight(rest) == |rest[0]| + 1 + Weight(rest[1..]);
      }
    }
  }

  /** No piece of a split holds the separator, and a trailing separator leaves an empty last piece. */
  lemma {:induction false} SplitPieces(s: string, c: char)
    ensures forall i :: 0 <= i < |Strs.Split(s, c)| ==> c !in Strs.Split(s, c)[i]
    ensures |s| > 0 && s[|s| - 1] == c ==> |Strs.Split(s, c)| >= 2 && Strs.Split(s, c)[|Strs.Split(s, c)| - 1] == ""
    ensures |s| > 0 && s[0] == c ==> Strs.Split(s, c)[0] == ""
    decreases |s|
  {
    if |s| > 0 {
      if s[|s| - 1] == c {
        SplitTrailing(s, c);
      }
      SplitPieces(s[1..], c);
      var rest := Strs.Split(s[1..], c);
      var r := Strs.Split(s, c);
      if s[0] == c {
        assert r == [""] + rest;
        assert forall i :: 1 <= i < |r| ==> r[i] == rest[i - 1];
      } else {
        assert r == [[s[0]] + rest[0]] + rest[1..];
        assert forall i :: 1 <= i < |r| ==> r[i] == rest[i];
      }
    }
  }

  /** A trailing separator leaves an empty last piece. */
  lemma {:induction false} SplitTrailing(s: string, c: char)
    requires |s| > 0 && s[|s| - 1] == c
    ensures |Strs.Split(s, c)| >= 2 && Strs.Split(s, c)[|Strs.Split(s, c)| - 1] == ""
    decreases |s|
  {
    var rest := Strs.Split(s[1..], c);
    if |s| == 1 {
      assert s[1..] == "" && s[0] == c;
      assert rest == [""];
    } else {
      assert s[1..][|s[1..]| - 1] == c;
      SplitTrailing(s[1..], c);
      var r := Strs.Split(s, c);
      if s[0] == c {
        assert r == [""] + rest;
      } else {
        assert r == [[s[0]] + rest[0]] + rest[1..];
      }
      assert r[|r| - 1] == rest[|rest| - 1];
    }
  }

  /** Solid weight loses one for an empty first piece and one for an empty last piece. */
  lemma {:induction false} SolidWeightBound(segs: seq<string>)
    ensures SolidWeight(segs) + (if |segs| > 0 && segs[0] == "" then 1 else 0)
            + (if |segs| > 1 && segs[|segs| - 1] == "" then 1 else 0) <= Weight(segs)
    decreases |segs|
  {
    if |segs| > 0 {
      var r := segs[1..];
      SolidWeightBound(r);
      if |segs| > 1 {
        assert segs[|segs| - 1] == r[|r| - 1];
      }
    }
  }

  lemma {:induction false} ResolveWeight(segs: seq<string>, rooted: bool)
    ensures Weight(Resolve(segs, rooted)) <= SolidWeight(segs)
    ensures forall i :: 0 <= i < |Resolve(segs, rooted)| ==>
              Resolve(segs, rooted)[i] != "" && (Resolve(segs, rooted)[i] == ".." || Resolve(segs, rooted)[i] in segs)
    decreases |segs|
  {
    if |segs| > 0 {
      var init := segs[..|segs| - 1];
      var last := segs[|segs| - 1];
      ResolveWeight(init, rooted);
      var st := Resolve(init, rooted);
      assert segs == init + [last];
      SolidWeightAppend(init, [last]);
      assert SolidWeight([last]) == (if last == "" then 0 else |last| + 1);
      var r := Step(st, last, rooted);
      if last == "" || last == "." {
      } else if last == ".." {
        if |st| > 0 && st[|st| - 1] != ".." {
          assert st == st[..|st| - 1] + [st[|st| - 1]];
          WeightAppend(st[..|st| - 1], [st[|st| - 1]]);
        } else if !rooted {
          WeightAppend(st, [".."]);
        }
      } else {
        WeightAppend(st, [last]);
      }
      forall i | 0 <= i < |r|
        ensures r[i] != "" && (r[i] == ".." || r[i] in segs)
      {
        if i < |st| {
          assert r[i] == st[i];
          assert st[i] in init ==> st[i] in segs;
        }
      }
    }
  }

  lemma {:induction false} JoinLength(xs: seq<string>)
    requires |xs| >= 1
    ensures |Strs.Join(xs, "/")| == Weight(xs) - 1
    decreases |xs|
  {
    if |xs| > 1 {
      JoinLength(xs[1..]);
    }
  }

  /** Cleaning a non-empty path never lengthens it, and strictly shortens one ending in '/'. */
  /** An empty segment changes nothing, wherever it stands. */
  lemma {:induction false} ResolveSkipsEmpty(xs: seq<string>, ys: seq<string>, rooted: bool)
    ensures Resolve(xs + [""] + ys, rooted) == Resolve(xs + ys, rooted)
    decreases |ys|
  {
    if |ys| == 0 {
      assert (xs + [""] + ys)[..|xs| + 1 - 1] == xs;
      assert xs + ys == xs;
    } else {
      var n := |ys| - 1;
      assert (xs + [""] + ys)[..|xs| + 1 + n] == xs + [""] + ys[..n];
      assert (xs + ys)[..|xs| + n] == xs + ys[..n];
      ResolveSkipsEmpty(xs, ys[..n], rooted);
    }
  }

  /** A doubled separator cleans like a single one. */
  lemma CleanDoubledSeparator(x: string, t: string)
    requires x != ""
    ensures Clean(x + "/" + "/" + t) == Clean(x + "/" + t)
  {
    Strs.SplitConcat(x, '/', "/" + t);
    Strs.SplitConcat("", '/', t);
    Strs.SplitConcat(x, '/', t);
    assert x + "/" + "/" + t == x + ['/'] + ("/" + t);
    assert "/" + t == "" + ['/'] + t;
    assert x + "/" + t == x + ['/'] + t;
    assert Strs.Split("", '/') == [""];
    ResolveSkipsEmpty(Strs.Split(x, '/'), Strs.Split(t, '/'), x[0] == '/');
    assert Strs.Split(x, '/') + ([""] + Strs.Split(t, '/')) == Strs.Split(x, '/') + [""] + Strs.Split(t, '/');
  }

  lemma CleanShortens(s: string)
    requires s != ""
    ensures |Clean(s)| <= |s|
    ensures |s| >= 2 && s[|s| - 1] == '/' ==> |Clean(s)| < |s|
  {
    var segs := Strs.Split(s, '/');
    var rooted := s[0] == '/';
    var st := Resolve(segs, rooted);
    SplitWeight(s, '/');
    SplitPieces(s, '/');
    SolidWeightBound(segs);
    ResolveWeight(segs, rooted);
    if |st| > 0 {
      JoinLength(st);
    }
  }

  /** The parent of a path other than "/" and "." is shorter, or is ".". */
  lemma DirShortens(p: string)
    requires p != "" && p != "/"
    ensures Dir(p) == "." || |Dir(p)| < |p|
  {
    var i := LastSlash(p);
    if i >= 0 {
      var q := p[..i + 1];
      CleanShortens(q);
      if i + 1 == |p| {
        assert q == p;
      }
    }
  }

  /** Cleaning keeps a path absolute or relative. */
  lemma CleanKeepsAbs(p: string)
    ensures IsAbs(Clean(p)) <==> IsAbs(p)
    ensures Clean(p) != ""
  {
    if p != "" {
      var segs := Strs.Split(p, '/');
      var rooted := p[0] == '/';
      var st := Resolve(segs, rooted);
      ResolveWeight(segs, rooted);
      SplitPieces(p, '/');
      if !rooted && |st| > 0 {
        assert st[0] != "";
        if st[0] != ".." {
          assert st[0] in segs;
          var k :| 0 <= k < |segs| && segs[k] == st[0];
          assert '/' !in st[0];
        }
        JoinFirst(st);
      }
    }
  }

  lemma {:induction false} JoinFirst(xs: seq<string>)
    requires |xs| >= 1 && xs[0] != ""
    ensures |Strs.Join(xs, "/")| > 0 && Strs.Join(xs, "/")[0] == xs[0][0]
  {
  }

  /** Joining onto an absolute first element keeps the result absolute. */
  lemma JoinKeepsAbs(elems: seq<string>)
    requires |elems| > 0 && IsAbs(elems[0])
    ensures IsAbs(Join(elems))
  {
    CleanKeepsAbs(Strs.Join(elems, "/"));
    assert Strs.Join(elems, "/")[0] == '/' by {
      if |elems| > 1 {
        assert Strs.Join(elems, "/") == elems[0] + "/" + Strs.Join(elems[1..], "/");
      }
    }
  }

  /** The parent of an absolute path is absolute. */
  lemma DirKeepsAbs(p: string)
    requires IsAbs(p)
    ensures IsAbs(Dir(p))
  {
    var i := LastSlash(p);
    assert p[0] == '/';
    assert i >= 0;
    CleanKeepsAbs(p[..i + 1]);
  }
}
