/** The parts of Go's `strings` and `strconv` packages the core relies on. */
module Strs {

  predicate HasPrefix(s: string, p: string) {
    |p| <= |s| && s[..|p|] == p
  }

  predicate HasSuffix(s: string, p: string) {
    |p| <= |s| && s[|s| - |p|..] == p
  }

  /** strings.TrimPrefix */
  function TrimPrefix(s: string, p: string): string {
    if HasPrefix(s, p) then s[|p|..] else s
  }

  /** strings.Join */
  function Join(parts: seq<string>, sep: string): string {
    if |parts| == 0 then ""
    else if |parts| == 1 then parts[0]
    else parts[0] + sep + Join(parts[1..], sep)
  }

  /** Joining two non-empty lists is joining each and putting the separator between. */
  lemma {:induction false} JoinAppend(xs: seq<string>, ys: seq<string>, sep: string)
    requires |xs| >= 1 && |ys| >= 1
    ensures Join(xs + ys, sep) == Join(xs, sep) + sep + Join(ys, sep)
    decreases |xs|
  {
    if |xs| == 1 {
      assert (xs + ys)[1..] == ys;
    } else {
      assert (xs + ys)[1..] == xs[1..] + ys;
      JoinAppend(xs[1..], ys, sep);
    }
  }

  /** strings.Split with a one-character separator: never empty, and `Split("", c) == [""]`. */
  function Split(s: string, c: char): (r: seq<string>)
    ensures |r| >= 1
    decreases |s|
  {
    if |s| == 0 then [""]
    else
      var rest := Split(s[1..], c);
      if s[0] == c then [""] + rest
      else [[s[0]] + rest[0]] + rest[1..]
  }

  /** Joining the pieces of a split with the separator gives the string back. */
  lemma {:induction false} SplitJoin(s: string, c: char)
    ensures Join(Split(s, c), [c]) == s
    decreases |s|
  {
    if |s| > 0 {
      var rest := Split(s[1..], c);
      SplitJoin(s[1..], c);
      if s[0] == c {
        assert Split(s, c) == [""] + rest;
        assert ([""] + rest)[1..] == rest;
      } else {
        var r := Split(s, c);
        assert r == [[s[0]] + rest[0]] + rest[1..];
        if |rest| > 1 {
          assert r[1..] == rest[1..];
          assert Join(rest, [c]) == rest[0] + [c] + Join(rest[1..], [c]);
        }
      }
    }
  }

  /** No piece of a split holds the separator. */
  lemma {:induction false} SplitPiecesOmitSeparator(s: string, c: char, i: nat)
    requires i < |Split(s, c)|
    ensures c !in Split(s, c)[i]
    decreases |s|
  {
    if |s| > 0 {
      var rest := Split(s[1..], c);
      if s[0] == c {
        if i > 0 {
          SplitPiecesOmitSeparator(s[1..], c, i - 1);
        }
      } else if i == 0 {
        SplitPiecesOmitSeparator(s[1..], c, 0);
      } else {
        SplitPiecesOmitSeparator(s[1..], c, i);
      }
    }
  }

  /** A string holding the separator splits into at least two pieces. */
  lemma {:induction false} SplitSeparates(s: string, c: char)
    requires c in s
    ensures |Split(s, c)| >= 2
    decreases |s|
  {
    if s[0] != c {
      SplitSeparates(s[1..], c);
    }
  }

  /** Splitting at one separator splits each side on its own. */
  lemma {:induction false} SplitConcat(x: string, c: char, y: string)
    ensures Split(x + [c] + y, c) == Split(x, c) + Split(y, c)
    decreases |x|
  {
    var s := x + [c] + y;
    if |x| == 0 {
      assert s == [c] + y && s[1..] == y;
    } else {
      assert s[0] == x[0] && s[1..] == x[1..] + [c] + y;
      SplitConcat(x[1..], c, y);
    }
  }

  lemma {:induction false} SplitNoSeparator(x: string, c: char)
    requires c !in x
    ensures Split(x, c) == [x]
    decreases |x|
  {
    if |x| > 0 {
      SplitNoSeparator(x[1..], c);
      assert [x[0]] + x[1..] == x;
    }
  }

  lemma {:induction false} SplitAtFirst(x: string, c: char, y: string)
    requires c !in x
    ensures Split(x + [c] + y, c) == [x] + Split(y, c)
    decreases |x|
  {
    if |x| == 0 {
      assert x + [c] + y == [c] + y;
      assert ([c] + y)[1..] == y;
    } else {
      var s := x + [c] + y;
      assert s[1..] == x[1..] + [c] + y;
      SplitAtFirst(x[1..], c, y);
      assert [x[0]] + x[1..] == x;
    }
  }

  /** Splitting a join recovers the pieces, as long as no piece holds the separator. */
  lemma {:induction false} JoinSplit(xs: seq<string>, c: char)
    requires |xs| >= 1
    requires forall i :: 0 <= i < |xs| ==> c !in xs[i]
    ensures Split(Join(xs, [c]), c) == xs
    decreases |xs|
  {
    if |xs| == 1 {
      SplitNoSeparator(xs[0], c);
    } else {
      JoinSplit(xs[1..], c);
      SplitAtFirst(xs[0], c, Join(xs[1..], [c]));
      assert [xs[0]] + xs[1..] == xs;
    }
  }

  /** strings.ReplaceAll for a non-empty pattern: left to right, without overlaps. */
  function ReplaceAll(s: string, pat: string, repl: string): string
    requires |pat| > 0
    decreases |s|
  {
    if |s| < |pat| then s
    else if s[..|pat|] == pat then repl + ReplaceAll(s[|pat|..], pat, repl)
    else [s[0]] + ReplaceAll(s[1..], pat, repl)
  }

  /** A prefix that cannot start the pattern passes through ReplaceAll unchanged. */
  lemma {:induction false} ReplaceAllSkips(x: string, y: string, pat: string, repl: string)
    requires |pat| > 0 && pat[0] !in x
    ensures ReplaceAll(x + y, pat, repl) == x + ReplaceAll(y, pat, repl)
    decreases |x|
  {
    if |x| > 0 {
      var s := x + y;
      assert s[0] == x[0] != pat[0];
      if |s| >= |pat| {
        assert s[..|pat|][0] == x[0];
        assert s[..|pat|] != pat;
        assert ReplaceAll(s, pat, repl) == [s[0]] + ReplaceAll(s[1..], pat, repl);
        assert s[1..] == x[1..] + y;
        ReplaceAllSkips(x[1..], y, pat, repl);
        assert [x[0]] + x[1..] == x;
        assert [s[0]] + (x[1..] + ReplaceAll(y, pat, repl)) == x + ReplaceAll(y, pat, repl);
      } else {
        assert ReplaceAll(s, pat, repl) == s;
        assert ReplaceAll(y, pat, repl) == y;
      }
    } else {
      assert x + y == y;
    }
  }

  /** A prefix none of whose positions starts an occurrence passes through ReplaceAll unchanged. */
  lemma {:induction false} ReplaceAllNoMatch(x: string, y: string, pat: string, repl: string)
    requires |pat| > 0
    requires forall k :: 0 <= k < |x| ==> !HasPrefix(x[k..] + y, pat)
    ensures ReplaceAll(x + y, pat, repl) == x + ReplaceAll(y, pat, repl)
    decreases |x|
  {
    if |x| > 0 {
      var s := x + y;
      assert x[0..] == x;
      if |s| >= |pat| {
        assert s[..|pat|] != pat;
        assert s[1..] == x[1..] + y;
        forall k | 0 <= k < |x[1..]| ensures !HasPrefix(x[1..][k..] + y, pat) {
          assert x[1..][k..] == x[k + 1..];
        }
        ReplaceAllNoMatch(x[1..], y, pat, repl);
        assert [x[0]] + x[1..] == x;
        assert [s[0]] + (x[1..] + ReplaceAll(y, pat, repl)) == x + ReplaceAll(y, pat, repl);
      } else {
        assert ReplaceAll(s, pat, repl) == s;
        assert ReplaceAll(y, pat, repl) == y;
      }
    } else {
      assert x + y == y;
    }
  }

  /** A leading occurrence of the pattern is replaced. */
  lemma ReplaceAllLeading(y: string, pat: string, repl: string)
    requires |pat| > 0
    ensures ReplaceAll(pat + y, pat, repl) == repl + ReplaceAll(y, pat, repl)
  {
    assert (pat + y)[..|pat|] == pat;
    assert (pat + y)[|pat|..] == y;
  }

  /** unicode.IsSpace */
  predicate IsSpace(c: char) {
    c == ' ' || c == '\t' || c == '\n' || c == '\U{000B}' || c == '\U{000C}' || c == '\r'
    || c == '\U{0085}' || c == '\U{00A0}' || c == '\U{1680}'
    || ('\U{2000}' <= c <= '\U{200A}') || c == '\U{2028}' || c == '\U{2029}'
    || c == '\U{202F}' || c == '\U{205F}' || c == '\U{3000}'
  }

  function TrimLeftSpace(s: string): (r: string)
    ensures |r| <= |s| && r == s[|s| - |r|..]
    ensures |r| > 0 ==> !IsSpace(r[0])
  {
    if |s| > 0 && IsSpace(s[0]) then TrimLeftSpace(s[1..]) else s
  }

  function TrimRightSpace(s: string): (r: string)
    ensures |r| <= |s| && r == s[..|r|]
    ensures |r| > 0 ==> !IsSpace(r[|r| - 1])
  {
    if |s| > 0 && IsSpace(s[|s| - 1]) then TrimRightSpace(s[..|s| - 1]) else s
  }

  /** strings.TrimSpace */
  function TrimSpace(s: string): string {
    TrimRightSpace(TrimLeftSpace(s))
  }

  /** Text without white space, written out as one line, trims back to itself. */
  lemma TrimSpaceLine(s: string)
    requires forall i :: 0 <= i < |s| ==> !IsSpace(s[i])
    ensures TrimSpace(s + "\n") == s
  {
    var t := s + "\n";
    if |s| == 0 {
      assert t[1..] == "";
      assert TrimLeftSpace(t) == TrimLeftSpace(t[1..]) == "";
    } else {
      assert TrimLeftSpace(t) == t;
      assert t[..|t| - 1] == s;
      assert TrimRightSpace(t) == TrimRightSpace(s);
      assert !IsSpace(s[|s| - 1]);
    }
  }

  function Digit(d: nat): char
    requires d < 10
  {
    "0123456789"[d]
  }

  /** strconv.Itoa on a non-negative number. */
  function NatToString(n: nat): (r: string)
    ensures |r| >= 1
    ensures forall i :: 0 <= i < |r| ==> '0' <= r[i] <= '9'
    decreases n
  {
    if n < 10 then [Digit(n)] else NatToString(n / 10) + [Digit(n % 10)]
  }

  function LowerChar(c: char): char {
    if 'A' <= c <= 'Z' then (c as int + 32) as char else c
  }

  function UpperChar(c: char): char {
    if 'a' <= c <= 'z' then (c as int - 32) as char else c
  }

  /** ASCII lower-casing, the case folding the model uses for JSON keys. */
  function Lower(s: string): (r: string)
    ensures |r| == |s|
  {
    if |s| == 0 then "" else [LowerChar(s[0])] + Lower(s[1..])
  }

  /** strings.ToUpper on ASCII text. */
  function Upper(s: string): (r: string)
    ensures |r| == |s|
  {
    if |s| == 0 then "" else [UpperChar(s[0])] + Upper(s[1..])
  }

  /** All lists of lines, one after the other. */
  function Concat(xss: seq<seq<string>>): seq<string> {
    if |xss| == 0 then [] else xss[0] + Concat(xss[1..])
  }

  lemma {:induction false} ConcatAppend(xss: seq<seq<string>>, ys: seq<string>)
    ensures Concat(xss + [ys]) == Concat(xss) + ys
    decreases |xss|
  {
    if |xss| == 0 {
      assert xss + [ys] == [ys];
    } else {
      assert (xss + [ys])[1..] == xss[1..] + [ys];
      ConcatAppend(xss[1..], ys);
    }
  }

  /** Number of lines that satisfy `p`. */
  function Count(lines: seq<string>, p: string -> bool): nat {
    if |lines| == 0 then 0 else (if p(lines[0]) then 1 else 0) + Count(lines[1..], p)
  }

  lemma {:induction false} CountAppend(xs: seq<string>, ys: seq<string>, p: string -> bool)
    ensures Count(xs + ys, p) == Count(xs, p) + Count(ys, p)
    decreases |xs|
  {
    if |xs| == 0 {
      assert xs + ys == ys;
    } else {
      assert (xs + ys)[1..] == xs[1..] + ys;
      CountAppend(xs[1..], ys, p);
    }
  }
}
