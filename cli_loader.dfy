/**
 * cli_loader.go: finding configuration files (in the git work tree, in the working
 * directory and in the history of configurations seen before) and the scripts a project
 * offers as sub-commands, with a per-project cache of parsed scripts keyed by file path
 * and invalidated by modification time.
 *
 * The file system is the `World` given to each operation; what the loader writes (the
 * script caches and the history file) is returned, as the files map after the writes.
 */
module Loader {
  import opened Wrappers
  import Strs
  import Paths
  import Json
  import World
  import Util
  import Venvy

  /** `defaultFileName`: the configuration file every search looks for. */
  const DefaultFileName: string := Venvy.ProjectName + ".toml"
  const SeenConfigsName: string := "seen_configs.json"
  const NoDocstring: string := "No docstring"
  /** `linesToScan`: how many leading lines may hold the docstring. */
  const LinesToScan: nat := 5

  /** `dotDir`: the hidden directory of the tool inside `inDir`. */
  function DotDir(inDir: string): (r: string)
    ensures r != ""
    ensures Paths.IsAbs(inDir) ==> Paths.IsAbs(r)
  {
    var elems := [inDir, "." + Venvy.ProjectName];
    assert elems[1] != "";
    if Paths.IsAbs(inDir) then Paths.JoinKeepsAbs(elems); Paths.Join(elems)
    else Paths.Join(elems)
  }

  /** `globalPath(elem...)`: a path below the tool's directory in the home directory. */
  function GlobalPath(w: World.World, elems: seq<string>): string {
    Paths.Join([DotDir(w.home)] + elems)
  }

  /** `seenConfigsPath`: where the history of configurations is kept. */
  function SeenConfigsPath(w: World.World): string {
    GlobalPath(w, [SeenConfigsName])
  }

  // ---------------------------------------------------------------- scripts

  /** `foundScript`: a script offered as a sub-command. */
  datatype FoundScript = FoundScript(
    lastModified: string,
    filePath: string,
    subCommand: string,
    docstring: string,
    execPrefix: string)

  /** `extExecPrefix`: the interpreter a non-executable script is run with, by extension. */
  function ExecPrefixFor(ext: string): (r: Option<string>)
    ensures r.Some? <==> ext in {".py", ".js", ".rb", ".bash", ".sh"}
    ensures r.Some? ==> Strs.HasPrefix(r.value, "/usr/bin/env ")
  {
    if ext == ".py" then Some("/usr/bin/env python")
    else if ext == ".js" then Some("/usr/bin/env node")
    else if ext == ".rb" then Some("/usr/bin/env ruby")
    else if ext == ".bash" then Some("/usr/bin/env bash")
    else if ext == ".sh" then Some("/usr/bin/env sh")
    else None
  }

  /** A character of the docstring pattern's leading class `[\-;#/\s}{]`; RE2's `\s` is `[\t\n\f\r ]`. */
  predicate LeaderChar(c: char) {
    c == '-' || c == ';' || c == '#' || c == '/' || c == '}' || c == '{'
    || c == ' ' || c == '\t' || c == '\n' || c == '\U{000C}' || c == '\r'
  }

  predicate IsQuote(c: char) {
    c == '"' || c == '\''
  }

  /**
   * The shape `scriptDocstringRe` matches: a non-empty run of leader characters, a
   * quote, a non-empty text without quotes (the captured group), and a quote that ends
   * the line.  The two quotes need not be the same character.
   */
  predicate DocShape(lead: string, open: char, text: string, close: char) {
    |lead| > 0 && (forall k :: 0 <= k < |lead| ==> LeaderChar(lead[k]))
    && IsQuote(open) && IsQuote(close)
    && |text| > 0 && (forall k :: 0 <= k < |text| ==> !IsQuote(text[k]))
  }

  /** Index of the first quote at or after `from`, or the length of the line. */
  function FirstQuote(s: string, from: nat): (i: nat)
    requires from <= |s|
    ensures from <= i <= |s|
    ensures i < |s| ==> IsQuote(s[i])
    ensures forall k :: from <= k < i ==> !IsQuote(s[k])
    decreases |s| - from
  {
    if from == |s| || IsQuote(s[from]) then from else FirstQuote(s, from + 1)
  }

  /** `FindStringSubmatch(line)[1]`: the text the docstring pattern captures, if the line matches. */
  function DocText(line: string): (r: Option<string>)
    ensures r.Some? ==> exists lead, open, close :: DocShape(lead, open, r.value, close) && line == lead + [open] + r.value + [close]
  {
    var i := FirstQuote(line, 0);
    var n := |line|;
    if 0 < i && i + 2 < n && IsQuote(line[n - 1])
       && (forall k :: 0 <= k < i ==> LeaderChar(line[k]))
       && (forall k :: i < k < n - 1 ==> !IsQuote(line[k]))
    then
      var text := line[i + 1..n - 1];
      assert DocShape(line[..i], line[i], text, line[n - 1]);
      assert line == line[..i] + [line[i]] + text + [line[n - 1]];
      Some(text)
    else None
  }

  /** Every line of the documented shape matches, and the pattern captures exactly its text. */
  lemma DocTextOfShape(lead: string, open: char, text: string, close: char)
    requires DocShape(lead, open, text, close)
    ensures DocText(lead + [open] + text + [close]) == Some(text)
  {
    var line := lead + [open] + text + [close];
    var i := FirstQuote(line, 0);
    assert line[|lead|] == open;
    assert forall k :: 0 <= k < |lead| ==> line[k] == lead[k];
    assert forall k :: |lead| < k < |line| - 1 ==> line[k] == text[k - |lead| - 1];
    assert i == |lead|;
    assert line[i + 1..|line| - 1] == text;
  }

  /**
   * The scan of `extractScript` from a given line on, with `left` lines still to look at:
   * a match supplies the docstring; the last line allowed without a match gives the
   * placeholder; running out of lines leaves it empty.
   */
  function ScanFrom(lines: seq<string>, left: nat): string
    decreases |lines|
  {
    if |lines| == 0 then ""
    else match DocText(lines[0])
      case Some(text) => text
      case None => if left <= 1 then NoDocstring else ScanFrom(lines[1..], left - 1)
  }

  /** The docstring of a script whose file reads as `lines`. */
  function Docstring(lines: seq<string>): string {
    ScanFrom(lines, LinesToScan)
  }

  predicate NoMatchBefore(lines: seq<string>, n: nat) {
    forall k :: 0 <= k < n && k < |lines| ==> DocText(lines[k]).None?
  }

  lemma {:induction false} ScanFromFinds(lines: seq<string>, left: nat, i: nat)
    requires left > 0 && i < left && i < |lines|
    requires NoMatchBefore(lines, i) && DocText(lines[i]).Some?
    ensures ScanFrom(lines, left) == DocText(lines[i]).value
    decreases i
  {
    if i > 0 {
      assert DocText(lines[0]).None?;
      assert NoMatchBefore(lines[1..], i - 1) by {
        forall k | 0 <= k < i - 1 && k < |lines[1..]| ensures DocText(lines[1..][k]).None? {
          assert lines[1..][k] == lines[k + 1];
        }
      }
      ScanFromFinds(lines[1..], left - 1, i - 1);
    }
  }

  lemma {:induction false} ScanFromMisses(lines: seq<string>, left: nat)
    requires left > 0 && NoMatchBefore(lines, left)
    ensures ScanFrom(lines, left) == if |lines| >= left then NoDocstring else ""
    decreases left
  {
    if |lines| > 0 && left > 1 {
      assert NoMatchBefore(lines[1..], left - 1) by {
        forall k | 0 <= k < left - 1 && k < |lines[1..]| ensures DocText(lines[1..][k]).None? {
          assert lines[1..][k] == lines[k + 1];
        }
      }
      ScanFromMisses(lines[1..], left - 1);
    }
  }

  /**
   * The docstring is the text of the first of the first five lines that matches; with no
   * match among them it is "No docstring" when the file has five lines or more, and ""
   * when it is shorter.
   */
  lemma DocstringIsFirstMatch(lines: seq<string>)
    ensures forall i :: 0 <= i < LinesToScan && i < |lines| && NoMatchBefore(lines, i) && DocText(lines[i]).Some? ==>
              Docstring(lines) == DocText(lines[i]).value
    ensures NoMatchBefore(lines, LinesToScan) ==>
              Docstring(lines) == if |lines| >= LinesToScan then NoDocstring else ""
  {
    forall i | 0 <= i < LinesToScan && i < |lines| && NoMatchBefore(lines, i) && DocText(lines[i]).Some?
      ensures Docstring(lines) == DocText(lines[i]).value
    {
      ScanFromFinds(lines, LinesToScan, i);
    }
    if NoMatchBefore(lines, LinesToScan) {
      ScanFromMisses(lines, LinesToScan);
    }
  }

  /** The scanning loop of `extractScript`, with its `linesToScan` counter. */
  method ScanDocstring(lines: seq<string>) returns (doc: string)
    ensures doc == Docstring(lines)
  {
    doc := "";
    var linesToScan: int := LinesToScan;
    var i := 0;
    while i < |lines|
      invariant 0 <= i <= |lines| && linesToScan == LinesToScan - i && linesToScan >= 1
      invariant ScanFrom(lines[i..], linesToScan) == Docstring(lines)
    {
      assert lines[i..][1..] == lines[i + 1..];
      var text := DocText(lines[i]);
      if text.Some? {
        return text.value;
      }
      linesToScan := linesToScan - 1;
      if linesToScan <= 0 {
        return NoDocstring;
      }
      i := i + 1;
    }
  }

  /** The lines a scanner reads from the file at `path`; a file that cannot be opened gives none. */
  function FileLines(w: World.World, path: string): seq<string> {
    if path in w.files then World.ScanLines(w.files[path]) else []
  }

  /** The file name without its last extension. */
  function BaseName(nameExt: string): (r: string)
    ensures r + Paths.Ext(nameExt) == nameExt
  {
    var ext := Paths.Ext(nameExt);
    nameExt[..|nameExt| - |ext|]
  }

  /**
   * What `extractScript` makes of the file `f` found at `path`: the sub-command is the
   * file name less its extension and must be a clean name; a file without any execute
   * bit needs an interpreter known for its extension; the docstring comes from the first
   * lines of the file.
   */
  function Extracted(w: World.World, path: string, f: World.FileInfo): (r: Result<FoundScript>)
    ensures r.Ok? <==> Util.IsCleanName(BaseName(f.name))
                        && (World.Executable(f) || ExecPrefixFor(Paths.Ext(f.name)).Some?)
    ensures r.Ok? ==> r.value.subCommand + Paths.Ext(f.name) == f.name && r.value.filePath == path
                      && r.value.lastModified == f.modTime
                      && r.value.docstring == Docstring(FileLines(w, path))
    ensures r.Ok? ==> r.value.execPrefix == if World.Executable(f) then "" else ExecPrefixFor(Paths.Ext(f.name)).value
  {
    var name := BaseName(f.name);
    if !Util.IsCleanName(name) then
      Err("script " + name + " name does not match regex [a-z_-]+ less the extension")
    else if !World.Executable(f) && ExecPrefixFor(Paths.Ext(f.name)).None? then
      Err("script " + name + " not executable and does not have known extension. chmod +x the file an add a shebang.")
    else
      var prefix := if World.Executable(f) then "" else ExecPrefixFor(Paths.Ext(f.name)).value;
      Ok(FoundScript(f.modTime, path, name, Docstring(FileLines(w, path)), prefix))
  }

  /** A script the loader extracts is never given the prefix " " (only "" or an interpreter). */
  lemma ExtractedPrefix(w: World.World, path: string, f: World.FileInfo)
    requires Extracted(w, path, f).Ok?
    ensures Extracted(w, path, f).value.execPrefix == "" || Strs.HasPrefix(Extracted(w, path, f).value.execPrefix, "/usr/bin/env ")
  {
  }

  /** `extractScript`. */
  method ExtractScript(w: World.World, path: string, f: World.FileInfo) returns (r: Result<FoundScript>)
    ensures r == Extracted(w, path, f)
  {
    var extension := Paths.Ext(f.name);
    var name := f.name[..|f.name| - |extension|];
    if !Util.IsCleanName(name) {
      return Err("script " + name + " name does not match regex [a-z_-]+ less the extension");
    }
    var prefix := "";
    if !World.Executable(f) {
      var known := ExecPrefixFor(extension);
      if known.None? {
        return Err("script " + name + " not executable and does not have known extension. chmod +x the file an add a shebang.");
      }
      prefix := known.value;
    }
    var doc := ScanDocstring(FileLines(w, path));
    r := Ok(FoundScript(f.modTime, path, name, doc, prefix));
  }
  // ---------------------------------------------------------------- the script cache

  /** `cacheFnameScripts`: parsed scripts by file path, as pairs with distinct keys. */
  type Cache = seq<(string, FoundScript)>

  /** The map lookup `cacheFnameScripts[fname]`. */
  function Lookup(c: Cache, k: string): (r: Option<FoundScript>)
    ensures r.Some? ==> (k, r.value) in c
    ensures r.None? <==> forall i :: 0 <= i < |c| ==> c[i].0 != k
  {
    if |c| == 0 then None
    else if c[0].0 == k then Some(c[0].1)
    else
      assert forall i :: 1 <= i < |c| ==> c[i] == c[1..][i - 1];
      Lookup(c[1..], k)
  }

  lemma LookupPair(c: Cache, k: string, v: FoundScript)
    requires Json.DistinctKeys(c) && (k, v) in c
    ensures Lookup(c, k) == Some(v)
  {
    var r := Lookup(c, k);
    var i :| 0 <= i < |c| && c[i] == (k, v);
    assert r.Some?;
    var j :| 0 <= j < |c| && c[j] == (k, r.value);
    assert i == j;
  }

  /** After `c[k] = v`, `k` reads as `v` and every other key as before. */
  lemma LookupPut(c: Cache, k: string, v: FoundScript)
    requires Json.DistinctKeys(c)
    ensures Lookup(Json.Put(c, k, v), k) == Some(v)
    ensures forall k' :: k' != k ==> Lookup(Json.Put(c, k, v), k') == Lookup(c, k')
  {
    var r := Json.Put(c, k, v);
    LookupPair(r, k, v);
    forall k' | k' != k ensures Lookup(r, k') == Lookup(c, k') {
      if Lookup(c, k').Some? {
        var i :| 0 <= i < |c| && c[i] == (k', Lookup(c, k').value);
        assert r[i] == c[i];
        LookupPair(r, k', c[i].1);
      }
      if Lookup(r, k').Some? {
        var j :| 0 <= j < |r| && r[j] == (k', Lookup(r, k').value);
        assert c[j] == r[j];
        LookupPair(c, k', r[j].1);
      }
    }
  }

  /** A cached script as `json.Marshal` writes a `foundScript`: its five fields by their Go names. */
  function ScriptJson(s: FoundScript): Json.Json {
    Json.Obj([("LastModified", Json.Str(s.lastModified)), ("FilePath", Json.Str(s.filePath)),
              ("SubCommand", Json.Str(s.subCommand)), ("Docstring", Json.Str(s.docstring)),
              ("ExecPrefix", Json.Str(s.execPrefix))])
  }

  function DecodeScript(ms: Json.Members): Result<FoundScript> {
    var lastModified :- Json.GetString(ms, "LastModified");
    var filePath :- Json.GetString(ms, "FilePath");
    var subCommand :- Json.GetString(ms, "SubCommand");
    var docstring :- Json.GetString(ms, "Docstring");
    var execPrefix :- Json.GetString(ms, "ExecPrefix");
    Ok(FoundScript(lastModified, filePath, subCommand, docstring, execPrefix))
  }

  /** A script written to the cache decodes back to itself. */
  lemma {:induction false} ScriptRoundTrip(s: FoundScript)
    ensures DecodeScript(ScriptJson(s).members) == Ok(s)
  {
    var ms := ScriptJson(s).members;
    assert Json.DistinctInitials(ms);
    Json.ValuesAt(ms, 0);
    Json.ValuesAt(ms, 1);
    Json.ValuesAt(ms, 2);
    Json.ValuesAt(ms, 3);
    Json.ValuesAt(ms, 4);
    Json.GetStringOnce(ms, "LastModified", s.lastModified);
    Json.GetStringOnce(ms, "FilePath", s.filePath);
    Json.GetStringOnce(ms, "SubCommand", s.subCommand);
    Json.GetStringOnce(ms, "Docstring", s.docstring);
    Json.GetStringOnce(ms, "ExecPrefix", s.execPrefix);
  }

  /** The members of the cache object `json.Marshal` makes of the map, one per entry, in order. */
  function CacheMembers(c: Cache): Json.Members {
    seq(|c|, i requires 0 <= i < |c| => (c[i].0, ScriptJson(c[i].1)))
  }

  function CacheJson(c: Cache): Json.Json {
    Json.Obj(CacheMembers(c))
  }

  /**
   * Decoding the cache object into the map: each entry an object, a later key replacing
   * an earlier one.
   */
  function DecodeEntries(ms: Json.Members, acc: Cache): (r: Result<Cache>)
    ensures Json.DistinctKeys(acc) && r.Ok? ==> Json.DistinctKeys(r.value)
    decreases |ms|
  {
    if |ms| == 0 then Ok(acc)
    else if ms[0].1.Obj? then
      var s :- DecodeScript(ms[0].1.members);
      DecodeEntries(ms[1..], Json.Put(acc, ms[0].0, s))
    else Err("json: cannot unmarshal " + Json.KindName(ms[0].1) + " into Go value of type main.foundScript")
  }

  /** Decoding the members of a cache after `acc` appends its entries, when no key repeats. */
  lemma {:induction false} EntriesAppend(c: Cache, acc: Cache)
    requires Json.DistinctKeys(acc + c)
    ensures DecodeEntries(CacheMembers(c), acc) == Ok(acc + c)
    decreases |c|
  {
    if |c| == 0 {
      assert acc + c == acc;
    } else {
      var ms := CacheMembers(c);
      assert ms[1..] == CacheMembers(c[1..]);
      EntriesStep(ms, acc, c[0].0, c[0].1);
      PutFront(acc, c);
      EntriesAppend(c[1..], acc + [c[0]]);
    }
  }

  /** The first entry of `c` is new to `acc`, so putting it appends it. */
  lemma PutFront<V>(acc: seq<(string, V)>, c: seq<(string, V)>)
    requires Json.DistinctKeys(acc + c) && |c| > 0
    ensures Json.Put(acc, c[0].0, c[0].1) == acc + [c[0]]
    ensures acc + [c[0]] + c[1..] == acc + c
  {
    assert (acc + c)[|acc|] == c[0];
    assert forall i :: 0 <= i < |acc| ==> acc[i] == (acc + c)[i];
    Json.PutNew(acc, c[0].0, c[0].1);
  }

  lemma EntriesStep(ms: Json.Members, acc: Cache, key: string, s: FoundScript)
    requires |ms| > 0 && ms[0] == (key, ScriptJson(s))
    ensures DecodeEntries(ms, acc) == DecodeEntries(ms[1..], Json.Put(acc, key, s))
  {
    ScriptRoundTrip(s);
  }

  /** A cache written as JSON decodes back to the same entries in the same order. */
  lemma CacheRoundTrip(c: Cache)
    requires Json.DistinctKeys(c)
    ensures DecodeEntries(CacheJson(c).members, []) == Ok(c)
  {
    assert [] + c == c;
    EntriesAppend(c, []);
  }

  /**
   * The cache `loadScripts` starts from: no file or an empty one gives an empty map, and
   * so does text that does not decode (the error is only logged).
   */
  function ReadCache(w: World.World, path: string): (r: Cache)
    ensures Json.DistinctKeys(r)
    ensures path !in w.files ==> r == []
  {
    var data := if path in w.files then w.files[path] else "";
    if data == "" then []
    else match w.parseJson(data)
      case Some(Obj(ms)) => (match DecodeEntries(ms, []) case Ok(c) => c case Err(_) => [])
      case _ => []
  }

  /** `cacheJson` written to the cache file. */
  function WriteCache(files: map<string, string>, path: string, c: Cache): map<string, string> {
    files[path := Json.Encode(CacheJson(c))]
  }

  /** A cache written by `loadScripts` is the cache the next run starts from, as long as the parser reads back what the encoder wrote. */
  lemma CacheWrittenIsRead(w: World.World, path: string, c: Cache)
    requires Json.DistinctKeys(c)
    requires w.parseJson(Json.Encode(CacheJson(c))) == Some(CacheJson(c))
    ensures ReadCache(w.(files := WriteCache(w.files, path, c)), path) == c
  {
    var text := Json.Encode(CacheJson(c));
    assert text == "{" + Json.EncodeMembers(CacheMembers(c)) + "}";
    assert text[0] == '{';
    var w' := w.(files := WriteCache(w.files, path, c));
    assert w'.files[path] == text;
    CacheRoundTrip(c);
  }

  // ---------------------------------------------------------------- scanning for scripts

  /** What the scan has produced so far: the scripts in order, and the cache. */
  datatype Scan = Scan(scripts: seq<FoundScript>, cache: Cache)

  /** A cache entry is fresh for a file when its recorded modification time is the file's. */
  predicate Fresh(c: Cache, fname: string, f: World.FileInfo) {
    Lookup(c, fname).Some? && Lookup(c, fname).value.lastModified == f.modTime
  }

  /**
   * One file of a script source: a fresh cache entry is reused as it is; otherwise the file
   * is extracted again and its entry overwritten; a file that cannot be extracted is
   * skipped and its entry left alone.
   */
  function Visit(w: World.World, acc: Scan, dir: string, f: World.FileInfo): (r: Scan)
    requires Json.DistinctKeys(acc.cache)
    ensures Json.DistinctKeys(r.cache)
    ensures r.scripts == acc.scripts || (|r.scripts| == |acc.scripts| + 1 && r.scripts[..|acc.scripts|] == acc.scripts)
    ensures r.scripts == acc.scripts ==> r == acc
    ensures r.scripts != acc.scripts ==> Fresh(r.cache, Paths.Join([dir, f.name]), f)
                                         && r.scripts[|acc.scripts|] == Lookup(r.cache, Paths.Join([dir, f.name])).value
    ensures forall k :: k != Paths.Join([dir, f.name]) ==> Lookup(r.cache, k) == Lookup(acc.cache, k)
    ensures forall k :: Lookup(acc.cache, k).Some? ==> Lookup(r.cache, k).Some?
  {
    var fname := Paths.Join([dir, f.name]);
    if Fresh(acc.cache, fname, f) then
      Scan(acc.scripts + [Lookup(acc.cache, fname).value], acc.cache)
    else
      match Extracted(w, fname, f)
      case Err(_) => acc
      case Ok(s) =>
        LookupPut(acc.cache, fname, s);
        Scan(acc.scripts + [s], Json.Put(acc.cache, fname, s))
  }

  /**
   * Visiting the same file again reuses what the first visit left: the same script is
   * added once more and the cache does not change.
   */
  lemma VisitAgainReuses(w: World.World, acc: Scan, dir: string, f: World.FileInfo)
    requires Json.DistinctKeys(acc.cache)
    ensures var once := Visit(w, acc, dir, f);
            var twice := Visit(w, once, dir, f);
            twice.cache == once.cache && twice.scripts == once.scripts + once.scripts[|acc.scripts|..]
  {
    var once := Visit(w, acc, dir, f);
    var fname := Paths.Join([dir, f.name]);
    if once.scripts == acc.scripts {
      assert once.scripts[|acc.scripts|..] == [];
    } else {
      assert once.scripts[|acc.scripts|..] == [once.scripts[|acc.scripts|]];
    }
  }

  /** The files of one source, in listing order. */
  function ScanFiles(w: World.World, acc: Scan, dir: string, files: seq<World.FileInfo>): (r: Scan)
    requires Json.DistinctKeys(acc.cache)
    ensures Json.DistinctKeys(r.cache)
    ensures |acc.scripts| <= |r.scripts| <= |acc.scripts| + |files| && r.scripts[..|acc.scripts|] == acc.scripts
    ensures forall k :: Lookup(acc.cache, k).Some? ==> Lookup(r.cache, k).Some?
    decreases |files|
  {
    if |files| == 0 then acc
    else Visit(w, ScanFiles(w, acc, dir, files[..|files| - 1]), dir, files[|files| - 1])
  }

  /** The loop over the files of one source. */
  method VisitFiles(w: World.World, acc: Scan, dir: string, files: seq<World.FileInfo>) returns (r: Scan)
    requires Json.DistinctKeys(acc.cache)
    ensures r == ScanFiles(w, acc, dir, files)
  {
    r := acc;
    for i := 0 to |files|
      invariant r == ScanFiles(w, acc, dir, files[..i])
    {
      assert files[..i + 1][..i] == files[..i];
      r := VisitFile(w, r, dir, files[i]);
    }
    assert files[..|files|] == files;
  }

  /** The body of the file loop: reuse the cached script when it is fresh, else parse the file. */
  method VisitFile(w: World.World, acc: Scan, dir: string, file: World.FileInfo) returns (r: Scan)
    requires Json.DistinctKeys(acc.cache)
    ensures r == Visit(w, acc, dir, file)
  {
    var fname := Paths.Join([dir, file.name]);
    var cached := Lookup(acc.cache, fname);
    if cached.Some? && file.modTime == cached.value.lastModified {
      assert Fresh(acc.cache, fname, file);
      r := acc.(scripts := acc.scripts + [cached.value]);
    } else {
      assert !Fresh(acc.cache, fname, file);
      r := acc;
      var parsed := ExtractScript(w, fname, file);
      if parsed.Ok? {
        r := Scan(acc.scripts + [parsed.value], Json.Put(acc.cache, fname, parsed.value));
      }
    }
  }

  /**
   * A script source, relative to the configuration file's directory unless absolute: a
   * directory gives its listing (nothing when it cannot be read), a file gives itself,
   * found in its own directory; a source that cannot be stat'ed gives nothing.
   */
  function SourceFiles(w: World.World, configPath: string, src: string): (r: Option<(string, seq<World.FileInfo>)>)
    ensures r.Some? ==> (if Paths.IsAbs(src) then src else Paths.Join([Paths.Dir(configPath), src])) in w.stat
  {
    var p := if Paths.IsAbs(src) then src else Paths.Join([Paths.Dir(configPath), src]);
    if p !in w.stat then None
    else if w.stat[p].isDir then Some((p, if p in w.listing then w.listing[p] else []))
    else Some((Paths.Dir(p), [w.stat[p]]))
  }

  /** All sources of one project, in order. */
  function ScanSources(w: World.World, configPath: string, acc: Scan, srcs: seq<string>): (r: Scan)
    requires Json.DistinctKeys(acc.cache)
    ensures Json.DistinctKeys(r.cache)
    ensures |acc.scripts| <= |r.scripts| && r.scripts[..|acc.scripts|] == acc.scripts
    ensures forall k :: Lookup(acc.cache, k).Some? ==> Lookup(r.cache, k).Some?
    decreases |srcs|
  {
    if |srcs| == 0 then acc
    else
      var before := ScanSources(w, configPath, acc, srcs[..|srcs| - 1]);
      match SourceFiles(w, configPath, srcs[|srcs| - 1])
      case None => before
      case Some((dir, files)) =>
        var r := ScanFiles(w, before, dir, files);
        assert r.scripts[..|acc.scripts|] == r.scripts[..|before.scripts|][..|acc.scripts|];
        r
  }

  /** The loop over the sources of one project. */
  method VisitSources(w: World.World, configPath: string, acc: Scan, srcs: seq<string>) returns (r: Scan)
    requires Json.DistinctKeys(acc.cache)
    ensures r == ScanSources(w, configPath, acc, srcs)
  {
    r := acc;
    for i := 0 to |srcs|
      invariant r == ScanSources(w, configPath, acc, srcs[..i])
    {
      assert srcs[..i + 1][..i] == srcs[..i];
      var scSource := srcs[i];
      if !Paths.IsAbs(scSource) {
        scSource := Paths.Join([Paths.Dir(configPath), scSource]);
      }
      if scSource in w.stat {
        var info := w.stat[scSource];
        var files;
        if info.isDir {
          files := if scSource in w.listing then w.listing[scSource] else [];
        } else {
          files := [info];
          scSource := Paths.Dir(scSource);
        }
        r := VisitFiles(w, r, scSource, files);
      }
    }
    assert srcs[..|srcs|] == srcs;
  }

  // ---------------------------------------------------------------- the scripts of a configuration

  /** `allScripts` and `ProjectScripts`: the scripts found for each project name. */
  type ScriptMap = seq<(string, seq<FoundScript>)>

  /** `allScripts[name]`: a name without an entry reads as no scripts. */
  function ScriptsOf(m: ScriptMap, name: string): (r: seq<FoundScript>)
    ensures (forall i :: 0 <= i < |m| ==> m[i].0 != name) ==> r == []
    ensures Json.DistinctKeys(m) ==> forall i :: 0 <= i < |m| && m[i].0 == name ==> r == m[i].1
  {
    if |m| == 0 then []
    else if m[0].0 == name then m[0].1
    else
      assert forall i :: 1 <= i < |m| ==> m[i] == m[1..][i - 1];
      ScriptsOf(m[1..], name)
  }

  /** After `m[k] = v`, `k` reads as `v` and every other name as before. */
  lemma ScriptsOfPut(m: ScriptMap, k: string, v: seq<FoundScript>)
    requires Json.DistinctKeys(m)
    ensures ScriptsOf(Json.Put(m, k, v), k) == v
    ensures forall k' :: k' != k ==> ScriptsOf(Json.Put(m, k, v), k') == ScriptsOf(m, k')
  {
    var r := Json.Put(m, k, v);
    forall k' | k' != k ensures ScriptsOf(r, k') == ScriptsOf(m, k') {
      if i :| 0 <= i < |m| && m[i].0 == k' {
        assert r[i] == m[i];
      } else {
        assert forall i :: 0 <= i < |r| ==> r[i].0 != k';
      }
    }
  }

  /** The cache file of a project: `<storage>/<name>/script_cache_<name>.json`. */
  function CacheFile(storageDir: string, name: string): string {
    Paths.Join([storageDir, name, "script_cache_" + name + ".json"])
  }

  /** One project's scan: its cache file read, then each of its sources in order. */
  function ProjectScan(w: World.World, configPath: string, storageDir: string, p: Venvy.Project): (r: Scan)
    ensures Json.DistinctKeys(r.cache)
  {
    var cache := ReadCache(w, CacheFile(storageDir, p.name));
    ScanSources(w, configPath, Scan([], cache), p.scriptSubcommands)
  }

  /** The scripts found so far, and the files after the cache writes so far. */
  datatype Loaded = Loaded(scripts: ScriptMap, files: map<string, string>)

  /**
   * One project of `loadScripts`: a project without script sources is skipped; otherwise
   * its scripts are appended to those of its name, and its cache file is written when the
   * cache is not empty.  Reads see the cache files written for earlier projects.
   */
  function LoadProject(w: World.World, configPath: string, storageDir: string, acc: Loaded, p: Venvy.Project): (r: Loaded)
    requires Json.DistinctKeys(acc.scripts)
    ensures Json.DistinctKeys(r.scripts)
    ensures |p.scriptSubcommands| == 0 ==> r == acc
  {
    if |p.scriptSubcommands| == 0 then acc
    else AddScan(acc, p.name, CacheFile(storageDir, p.name), ProjectScan(w.(files := acc.files), configPath, storageDir, p))
  }

  /** What one project's scan adds: its scripts under its name, and its cache file when the cache is not empty. */
  function AddScan(acc: Loaded, name: string, cacheFile: string, scan: Scan): (r: Loaded)
    requires Json.DistinctKeys(acc.scripts)
    ensures Json.DistinctKeys(r.scripts)
  {
    var joined := ScriptsOf(acc.scripts, name) + scan.scripts;
    var scripts := if |scan.scripts| == 0 then acc.scripts else Json.Put(acc.scripts, name, joined);
    var files := if |scan.cache| == 0 then acc.files else WriteCache(acc.files, cacheFile, scan.cache);
    Loaded(scripts, files)
  }

  /** A scan's scripts are appended to the entry of its name and nothing else changes; its cache is written when not empty. */
  lemma AddScanEffect(acc: Loaded, name: string, cacheFile: string, scan: Scan)
    requires Json.DistinctKeys(acc.scripts)
    ensures var r := AddScan(acc, name, cacheFile, scan);
            && ScriptsOf(r.scripts, name) == ScriptsOf(acc.scripts, name) + scan.scripts
            && r.files == (if |scan.cache| == 0 then acc.files
                           else acc.files[cacheFile := Json.Encode(CacheJson(scan.cache))])
            && (forall k :: k != name ==> ScriptsOf(r.scripts, k) == ScriptsOf(acc.scripts, k))
            && (forall i :: 0 <= i < |r.scripts| ==> r.scripts[i].0 == name || r.scripts[i] in acc.scripts)
  {
    var joined := ScriptsOf(acc.scripts, name) + scan.scripts;
    ScriptsOfPut(acc.scripts, name, joined);
  }

  /**
   * A project with script sources appends what it found to its entry and writes its
   * cache file when the cache is not empty; no other entry changes.
   */
  lemma LoadProjectEffect(w: World.World, configPath: string, storageDir: string, acc: Loaded, p: Venvy.Project)
    requires Json.DistinctKeys(acc.scripts) && |p.scriptSubcommands| > 0
    ensures var r := LoadProject(w, configPath, storageDir, acc, p);
            var scan := ProjectScan(w.(files := acc.files), configPath, storageDir, p);
            && ScriptsOf(r.scripts, p.name) == ScriptsOf(acc.scripts, p.name) + scan.scripts
            && r.files == (if |scan.cache| == 0 then acc.files
                           else acc.files[CacheFile(storageDir, p.name) := Json.Encode(CacheJson(scan.cache))])
            && (forall k :: k != p.name ==> ScriptsOf(r.scripts, k) == ScriptsOf(acc.scripts, k))
            && (forall i :: 0 <= i < |r.scripts| ==> r.scripts[i].0 == p.name || r.scripts[i] in acc.scripts)
  {
    AddScanEffect(acc, p.name, CacheFile(storageDir, p.name), ProjectScan(w.(files := acc.files), configPath, storageDir, p));
  }

  /** `loadScripts` over the projects of a configuration, in order. */
  function LoadAll(w: World.World, configPath: string, storageDir: string, ps: seq<Venvy.Project>): (r: Loaded)
    ensures Json.DistinctKeys(r.scripts)
    decreases |ps|
  {
    if |ps| == 0 then Loaded([], w.files)
    else LoadProject(w, configPath, storageDir, LoadAll(w, configPath, storageDir, ps[..|ps| - 1]), ps[|ps| - 1])
  }

  /** A project with script sources. */
  predicate HasSources(p: Venvy.Project) {
    |p.scriptSubcommands| > 0
  }

  /** Only projects with script sources get an entry in the loaded scripts. */
  lemma {:induction false} LoadAllNames(w: World.World, configPath: string, storageDir: string, ps: seq<Venvy.Project>)
    ensures forall i :: 0 <= i < |LoadAll(w, configPath, storageDir, ps).scripts| ==>
              exists j :: 0 <= j < |ps| && HasSources(ps[j]) && ps[j].name == LoadAll(w, configPath, storageDir, ps).scripts[i].0
    decreases |ps|
  {
    if |ps| > 0 {
      var init := ps[..|ps| - 1];
      var p := ps[|ps| - 1];
      LoadAllNames(w, configPath, storageDir, init);
      var before := LoadAll(w, configPath, storageDir, init).scripts;
      var after := LoadAll(w, configPath, storageDir, ps).scripts;
      forall i | 0 <= i < |after|
        ensures exists j :: 0 <= j < |ps| && HasSources(ps[j]) && ps[j].name == after[i].0
      {
        if after[i] in before {
          var k :| 0 <= k < |before| && before[k] == after[i];
          var j :| 0 <= j < |init| && HasSources(init[j]) && init[j].name == before[k].0;
          assert ps[j] == init[j];
        } else {
          assert after[i].0 == p.name;
          assert ps[|ps| - 1].name == after[i].0;
        }
      }
    } else {
      assert LoadAll(w, configPath, storageDir, ps).scripts == [];
    }
  }

  /** Loading writes no file but the cache files of projects with script sources. */
  lemma {:induction false} LoadAllFiles(w: World.World, configPath: string, storageDir: string, ps: seq<Venvy.Project>)
    ensures forall f :: (forall j :: 0 <= j < |ps| && HasSources(ps[j]) ==> f != CacheFile(storageDir, ps[j].name)) ==>
              (f in LoadAll(w, configPath, storageDir, ps).files <==> f in w.files)
              && (f in w.files ==> LoadAll(w, configPath, storageDir, ps).files[f] == w.files[f])
    decreases |ps|
  {
    if |ps| > 0 {
      var init := ps[..|ps| - 1];
      var p := ps[|ps| - 1];
      LoadAllFiles(w, configPath, storageDir, init);
      forall f | forall j :: 0 <= j < |ps| && HasSources(ps[j]) ==> f != CacheFile(storageDir, ps[j].name)
        ensures (f in LoadAll(w, configPath, storageDir, ps).files <==> f in w.files)
                && (f in w.files ==> LoadAll(w, configPath, storageDir, ps).files[f] == w.files[f])
      {
        assert forall j :: 0 <= j < |init| ==> init[j] == ps[j];
        if HasSources(p) {
          assert f != CacheFile(storageDir, ps[|ps| - 1].name);
        }
      }
    }
  }


  /** The projects loop of `loadScripts`. */
  method LoadScripts(w: World.World, configPath: string, storageDir: string, ps: seq<Venvy.Project>) returns (r: Loaded)
    ensures r == LoadAll(w, configPath, storageDir, ps)
  {
    r := Loaded([], w.files);
    for i := 0 to |ps|
      invariant r == LoadAll(w, configPath, storageDir, ps[..i])
    {
      assert ps[..i + 1][..i] == ps[..i];
      var project := ps[i];
      if |project.scriptSubcommands| == 0 {
        continue;
      }
      var cacheFile := CacheFile(storageDir, project.name);
      var seen := w.(files := r.files);
      var cache := ReadCache(seen, cacheFile);
      var scan := VisitSources(seen, configPath, Scan([], cache), project.scriptSubcommands);
      if |scan.scripts| > 0 {
        ScriptsOfPut(r.scripts, project.name, ScriptsOf(r.scripts, project.name) + scan.scripts);
        r := r.(scripts := Json.Put(r.scripts, project.name, ScriptsOf(r.scripts, project.name) + scan.scripts));
      }
      if |scan.cache| > 0 {
        r := r.(files := WriteCache(r.files, cacheFile, scan.cache));
      }
    }
    assert ps[..|ps|] == ps;
  }

  // ---------------------------------------------------------------- a found configuration

  /**
   * `loadConfig`: the file is read, converted from TOML, decoded and validated; a failure
   * at any step leaves no configuration.
   */
  function ReadConfig(w: World.World, path: string): (r: Option<Venvy.Config>)
    ensures r.Some? ==> Venvy.ValidConfig(r.value)
    ensures r.Some? <==> path in w.files && w.toml(w.files[path]).Some?
                         && Venvy.DecodeConfig(w.toml(w.files[path]).value).Ok?
                         && Venvy.ValidConfig(Venvy.DecodeConfig(w.toml(w.files[path]).value).value)
    ensures r.Some? ==> r == Some(Venvy.DecodeConfig(w.toml(w.files[path]).value).value)
  {
    if path !in w.files then None
    else match w.toml(w.files[path])
      case None => None
      case Some(j) =>
        match Venvy.DecodeConfig(j)
        case Err(_) => None
        case Ok(c) => match Venvy.Validate(c) case Err(_) => None case Ok(v) => Some(v)
  }

  /** What discovery knows of a configuration file: what the history file records of it. */
  datatype Found = Found(path: string, storageDir: string, knownScripts: Option<ScriptMap>)

  /**
   * `foundConfig`: a configuration file, its storage directory, and its configuration and
   * scripts, each computed at the first request only (the two `sync.Once` latches).
   * `Scripts` also returns the files after its cache writes.
   */
  class FoundConfig {
    const path: string
    const storageDir: string
    var projectScripts: Option<ScriptMap>
    var config: Option<Venvy.Config>
    var loaded: bool
    var scanned: bool

    constructor(found: Found)
      ensures path == found.path && storageDir == found.storageDir && projectScripts == found.knownScripts
      ensures config.None? && !loaded && !scanned
    {
      path := found.path;
      storageDir := found.storageDir;
      projectScripts := found.knownScripts;
      config := None;
      loaded := false;
      scanned := false;
    }

    /** `Config()`: the configuration read at the first call, the same one afterwards. */
    method Config(w: World.World) returns (c: Option<Venvy.Config>)
      modifies this
      ensures loaded && c == config
      ensures config == if old(loaded) then old(config) else ReadConfig(w, path)
      ensures projectScripts == old(projectScripts) && scanned == old(scanned)
    {
      if !loaded {
        config := ReadConfig(w, path);
        loaded := true;
      }
      c := config;
    }

    /**
     * `Scripts()`: at the first call, the scripts of every project of the configuration,
     * which replace what the history recorded; without a configuration the recorded
     * scripts stay.  Later calls change nothing.
     */
    method Scripts(w: World.World) returns (s: Option<ScriptMap>, files: map<string, string>)
      modifies this
      ensures scanned && s == projectScripts
      ensures old(scanned) ==> projectScripts == old(projectScripts) && files == w.files
                               && config == old(config) && loaded == old(loaded)
      ensures !old(scanned) ==> loaded && config == if old(loaded) then old(config) else ReadConfig(w, path)
      ensures !old(scanned) && config.None? ==> projectScripts == old(projectScripts) && files == w.files
      ensures !old(scanned) && config.Some? ==>
                var l := LoadAll(w, path, storageDir, config.value.projects);
                projectScripts == Some(l.scripts) && files == l.files
    {
      files := w.files;
      if !scanned {
        scanned := true;
        var c := Config(w);
        if c.Some? {
          var l := LoadScripts(w, path, storageDir, c.value.projects);
          projectScripts := Some(l.scripts);
          files := l.files;
        }
      }
      s := projectScripts;
    }
  }

  // ---------------------------------------------------------------- de-duplication by path

  /** The paths of some found configurations. */
  function PathSet(xs: seq<Found>): set<string> {
    set i | 0 <= i < |xs| :: xs[i].path
  }

  lemma PathSetAppend(xs: seq<Found>, ys: seq<Found>)
    ensures PathSet(xs + ys) == PathSet(xs) + PathSet(ys)
  {
    var zs := xs + ys;
    forall p | p in PathSet(zs) ensures p in PathSet(xs) + PathSet(ys) {
      var i :| 0 <= i < |zs| && zs[i].path == p;
      if i >= |xs| {
        assert ys[i - |xs|] == zs[i];
      }
    }
    forall p | p in PathSet(ys) ensures p in PathSet(zs) {
      var i :| 0 <= i < |ys| && ys[i].path == p;
      assert zs[|xs| + i] == ys[i];
    }
    forall p | p in PathSet(xs) ensures p in PathSet(zs) {
      var i :| 0 <= i < |xs| && xs[i].path == p;
      assert zs[i] == xs[i];
    }
  }

  /** No two configurations share a path. */
  predicate DistinctPaths(xs: seq<Found>) {
    forall i, j :: 0 <= i < j < |xs| ==> xs[i].path != xs[j].path
  }

  /** `xs[k]` is the first configuration of `xs` with its path. */
  predicate FirstOf(xs: seq<Found>, k: nat)
    requires k < |xs|
  {
    forall m :: 0 <= m < k ==> xs[m].path != xs[k].path
  }

  /** The `pathsSeen` loop: each configuration is kept when no earlier one had its path. */
  function Unique(xs: seq<Found>): seq<Found>
    decreases |xs|
  {
    if |xs| == 0 then []
    else
      var init := xs[..|xs| - 1];
      var last := xs[|xs| - 1];
      if last.path in PathSet(init) then Unique(init) else Unique(init) + [last]
  }

  /** One more configuration: kept exactly when its path is new. */
  lemma UniqueSnoc(xs: seq<Found>, x: Found)
    ensures Unique(xs + [x]) == if x.path in PathSet(xs) then Unique(xs) else Unique(xs) + [x]
    ensures PathSet(xs + [x]) == PathSet(xs) + {x.path}
  {
    assert (xs + [x])[..|xs|] == xs;
    PathSetAppend(xs, [x]);
    assert PathSet([x]) == {x.path};
  }

  /** The result has distinct paths, the same paths as the input, and only its elements. */
  lemma UniqueProps(xs: seq<Found>)
    ensures DistinctPaths(Unique(xs))
    ensures PathSet(Unique(xs)) == PathSet(xs)
    ensures forall i :: 0 <= i < |Unique(xs)| ==> Unique(xs)[i] in xs
  {
    UniquePaths(xs);
    UniqueDistinct(xs);
    UniqueWithin(xs);
  }

  lemma {:induction false} UniquePaths(xs: seq<Found>)
    ensures PathSet(Unique(xs)) == PathSet(xs)
    decreases |xs|
  {
    if |xs| > 0 {
      var init := xs[..|xs| - 1];
      var last := xs[|xs| - 1];
      assert init + [last] == xs;
      UniquePaths(init);
      UniqueSnoc(init, last);
      if last.path !in PathSet(init) {
        PathSetAppend(Unique(init), [last]);
        assert PathSet([last]) == {last.path};
      }
    } else {
      assert Unique(xs) == [];
    }
  }

  lemma {:induction false} UniqueDistinct(xs: seq<Found>)
    ensures DistinctPaths(Unique(xs))
    decreases |xs|
  {
    if |xs| > 0 {
      var init := xs[..|xs| - 1];
      var last := xs[|xs| - 1];
      assert init + [last] == xs;
      UniqueDistinct(init);
      UniquePaths(init);
      UniqueSnoc(init, last);
      if last.path !in PathSet(init) {
        var u := Unique(init);
        forall m | 0 <= m < |u| ensures u[m].path != last.path {
          assert u[m].path in PathSet(u);
        }
        assert Unique(xs) == u + [last];
      }
    } else {
      assert Unique(xs) == [];
    }
  }

  lemma {:induction false} UniqueWithin(xs: seq<Found>)
    ensures forall i :: 0 <= i < |Unique(xs)| ==> Unique(xs)[i] in xs
    decreases |xs|
  {
    if |xs| > 0 {
      var init := xs[..|xs| - 1];
      var last := xs[|xs| - 1];
      assert init + [last] == xs;
      UniqueWithin(init);
      UniqueSnoc(init, last);
      forall i | 0 <= i < |Unique(xs)| ensures Unique(xs)[i] in xs {
        if i < |Unique(init)| {
          assert Unique(xs)[i] == Unique(init)[i];
        }
      }
    } else {
      assert Unique(xs) == [];
    }
  }

  /** Every configuration kept is the first of the input with its path. */
  lemma UniqueKeepsFirst(xs: seq<Found>)
    ensures forall i :: 0 <= i < |Unique(xs)| ==>
              exists k :: 0 <= k < |xs| && xs[k] == Unique(xs)[i] && FirstOf(xs, k)
  {
    forall i | 0 <= i < |Unique(xs)| ensures exists k :: 0 <= k < |xs| && xs[k] == Unique(xs)[i] && FirstOf(xs, k) {
      var k := KeptIsFirst(xs, i);
      assert 0 <= k < |xs| && xs[k] == Unique(xs)[i] && FirstOf(xs, k);
    }
    assert forall i :: 0 <= i < |Unique(xs)| ==>
              exists k :: 0 <= k < |xs| && xs[k] == Unique(xs)[i] && FirstOf(xs, k);
  }

  /** The configuration kept at position i is the first of the input with its path: at position k. */
  lemma {:induction false} KeptIsFirst(xs: seq<Found>, i: int) returns (k: nat)
    requires 0 <= i < |Unique(xs)|
    ensures k < |xs| && xs[k] == Unique(xs)[i] && FirstOf(xs, k)
    decreases |xs|
  {
    var init := xs[..|xs| - 1];
    var last := xs[|xs| - 1];
    assert xs == init + [last];
    UniqueSnoc(init, last);
    if i < |Unique(init)| {
      k := KeptIsFirst(init, i);
      assert Unique(xs)[i] == Unique(init)[i];
      assert xs[k] == init[k];
      assert forall m :: 0 <= m < k ==> xs[m] == init[m];
    } else {
      assert last.path !in PathSet(init) && Unique(xs)[i] == last;
      forall m | 0 <= m < |xs| - 1 ensures xs[m].path != last.path {
        assert init[m] == xs[m];
        assert init[m].path in PathSet(init);
      }
      k := |xs| - 1;
    }
  }

  /** Configurations appended after `xs` only add to what `Unique(xs)` kept, with paths new to `xs`. */
  lemma {:induction false} UniqueExtends(xs: seq<Found>, ys: seq<Found>)
    ensures |Unique(xs)| <= |Unique(xs + ys)| && Unique(xs + ys)[..|Unique(xs)|] == Unique(xs)
    ensures forall i :: |Unique(xs)| <= i < |Unique(xs + ys)| ==> Unique(xs + ys)[i].path !in PathSet(xs)
    decreases |ys|
  {
    if |ys| == 0 {
      assert xs + ys == xs;
    } else {
      var ys' := ys[..|ys| - 1];
      UniqueExtends(xs, ys');
      assert xs + ys == (xs + ys') + [ys[|ys| - 1]];
      UniqueSnoc(xs + ys', ys[|ys| - 1]);
      PathSetAppend(xs, ys');
    }
  }

  /** Configurations whose paths were all seen before add nothing. */
  lemma {:induction false} UniqueSeen(xs: seq<Found>, ys: seq<Found>)
    requires PathSet(ys) <= PathSet(xs)
    ensures Unique(xs + ys) == Unique(xs)
    decreases |ys|
  {
    if |ys| == 0 {
      assert xs + ys == xs;
    } else {
      var ys' := ys[..|ys| - 1];
      PathSetAppend(ys', [ys[|ys| - 1]]);
      assert ys' + [ys[|ys| - 1]] == ys;
      UniqueSeen(xs, ys');
      assert xs + ys == (xs + ys') + [ys[|ys| - 1]];
      UniqueSnoc(xs + ys', ys[|ys| - 1]);
      PathSetAppend(xs, ys');
    }
  }

  /** Configurations with new and distinct paths are all kept, in order. */
  lemma {:induction false} UniqueFresh(xs: seq<Found>, ys: seq<Found>)
    requires DistinctPaths(ys) && PathSet(ys) !! PathSet(xs)
    ensures Unique(xs + ys) == Unique(xs) + ys
    decreases |ys|
  {
    if |ys| == 0 {
      assert xs + ys == xs;
    } else {
      var ys' := ys[..|ys| - 1];
      var y := ys[|ys| - 1];
      assert DistinctPaths(ys') && PathSet(ys') !! PathSet(xs) && y.path !in PathSet(xs + ys') by {
        assert ys' + [y] == ys;
        UniqueSnoc(ys', y);
        PathSetAppend(xs, ys');
        forall i | 0 <= i < |ys'| ensures ys'[i].path != y.path {
          assert ys'[i] == ys[i];
        }
      }
      UniqueFresh(xs, ys');
      assert Unique(xs + ys) == Unique(xs + ys') + [y] by {
        assert xs + ys == (xs + ys') + [y];
        UniqueSnoc(xs + ys', y);
      }
      assert Unique(xs) + ys' + [y] == Unique(xs) + ys;
    }
  }

  /** What `Unique(a + h)` keeps beyond `Unique(a)`: distinct paths, none of them in `a`. */
  lemma UniqueTail(a: seq<Found>, h: seq<Found>)
    ensures |Unique(a)| <= |Unique(a + h)|
    ensures var u := Unique(a + h); var d := u[|Unique(a)|..];
            u == Unique(a) + d && DistinctPaths(d) && PathSet(d) !! PathSet(a)
  {
    var u := Unique(a + h);
    var n := |Unique(a)|;
    UniqueExtends(a, h);
    UniqueProps(a + h);
    var d := u[n..];
    assert u == Unique(a) + d;
    forall i, j | 0 <= i < j < |d| ensures d[i].path != d[j].path {
      assert d[i] == u[n + i] && d[j] == u[n + j];
    }
    forall p | p in PathSet(d) ensures p !in PathSet(a) {
      var i :| 0 <= i < |d| && d[i].path == p;
      assert d[i] == u[n + i];
    }
  }

  /** De-duplicating what was already de-duplicated, after the same prefix, changes nothing. */
  lemma UniqueAgain(a: seq<Found>, h: seq<Found>)
    ensures Unique(a + Unique(a + h)) == Unique(a + h)
  {
    var u := Unique(a + h);
    var ua := Unique(a);
    assert |ua| <= |u| by { UniqueTail(a, h); }
    var d := u[|ua|..];
    assert u == ua + d && DistinctPaths(d) && PathSet(d) !! PathSet(a) by { UniqueTail(a, h); }
    assert PathSet(ua) == PathSet(a) by { UniqueProps(a); }
    assert PathSet(a + ua) == PathSet(a) by { PathSetAppend(a, ua); }
    assert Unique(a + ua) == ua by { UniqueSeen(a, ua); }
    calc {
      Unique(a + u);
    == { Regroup(a, ua, d, u); }
      Unique((a + ua) + d);
    == { UniqueFresh(a + ua, d); }
      Unique(a + ua) + d;
    }
  }

  lemma Regroup(a: seq<Found>, b: seq<Found>, c: seq<Found>, bc: seq<Found>)
    requires bc == b + c
    ensures a + bc == (a + b) + c
  {
  }

  /** All lists of configurations, one after the other. */
  function Flatten(groups: seq<seq<Found>>): seq<Found>
    decreases |groups|
  {
    if |groups| == 0 then [] else Flatten(groups[..|groups| - 1]) + groups[|groups| - 1]
  }

  /** The nested `pathsSeen` loops over lists of configurations. */
  method Dedupe(groups: seq<seq<Found>>) returns (r: seq<Found>)
    ensures r == Unique(Flatten(groups))
  {
    r := [];
    var seen: set<string> := {};
    for g := 0 to |groups|
      invariant r == Unique(Flatten(groups[..g])) && seen == PathSet(Flatten(groups[..g]))
    {
      assert groups[..g + 1][..g] == groups[..g];
      r, seen := DedupeGroup(Flatten(groups[..g]), groups[g], r, seen);
    }
    assert groups[..|groups|] == groups;
  }

  /** The inner `pathsSeen` loop: the configurations of one list, after those already `done`. */
  method DedupeGroup(ghost done: seq<Found>, group: seq<Found>, r0: seq<Found>, seen0: set<string>)
      returns (r: seq<Found>, seen: set<string>)
    requires r0 == Unique(done) && seen0 == PathSet(done)
    ensures r == Unique(done + group) && seen == PathSet(done + group)
  {
    r, seen := r0, seen0;
    assert done + group[..0] == done;
    for i := 0 to |group|
      invariant r == Unique(done + group[..i]) && seen == PathSet(done + group[..i])
    {
      var config := group[i];
      SnocPrefix(done, group, i);
      UniqueSnoc(done + group[..i], config);
      if config.path !in seen {
        seen := seen + {config.path};
        r := r + [config];
      }
    }
    assert group[..|group|] == group;
  }

  lemma SnocPrefix(done: seq<Found>, group: seq<Found>, i: nat)
    requires i < |group|
    ensures done + group[..i + 1] == (done + group[..i]) + [group[i]]
  {
    assert group[..i + 1] == group[..i] + [group[i]];
  }

  // ---------------------------------------------------------------- configurations in the git work tree

  /** The configuration a listed line names: the line joined to the work-tree root. */
  function Listed(root: string, line: string): Found {
    Found(Paths.Join([root, line]), DotDir(root), None)
  }

  /** A listed line that names a configuration file. */
  predicate Names(line: string) {
    Strs.HasSuffix(line, DefaultFileName)
  }

  /** The lines of one listing that name a configuration, as configurations. */
  function Matching(root: string, lines: seq<string>): seq<Found>
    decreases |lines|
  {
    if |lines| == 0 then []
    else
      var last := lines[|lines| - 1];
      Matching(root, lines[..|lines| - 1]) + (if Names(last) then [Listed(root, last)] else [])
  }

  /** Exactly the lines that name a configuration give one. */
  lemma {:induction false} MatchingExact(root: string, lines: seq<string>)
    ensures forall x :: x in Matching(root, lines) ==> exists l :: l in lines && Names(l) && x == Listed(root, l)
    ensures forall l :: l in lines && Names(l) ==> Listed(root, l) in Matching(root, lines)
    decreases |lines|
  {
    if |lines| > 0 {
      var init := lines[..|lines| - 1];
      MatchingExact(root, init);
      assert lines == init + [lines[|lines| - 1]];
    }
  }

  /** The lines of a listing: its output trimmed and split at newlines. */
  function ListedLines(out: string): seq<string> {
    Strs.Split(Strs.TrimSpace(out), '\n')
  }

  /** What one `git ls-files` run contributes: nothing when the command failed. */
  function Listing(root: string, out: Option<string>): seq<Found> {
    match out
    case None => []
    case Some(data) => Matching(root, ListedLines(data))
  }

  /** The three listings `configPathsFromGit` runs, in order: untracked files, with submodules, plain. */
  function GitListings(w: World.World): seq<Option<string>> {
    [w.git.others, w.git.recurse, w.git.plain]
  }

  function GitGroups(root: string, outs: seq<Option<string>>): (r: seq<seq<Found>>)
    ensures |r| == |outs| && forall i :: 0 <= i < |outs| ==> r[i] == Listing(root, outs[i])
  {
    seq(|outs|, i requires 0 <= i < |outs| => Listing(root, outs[i]))
  }

  /**
   * `configPathsFromGit`: outside a git work tree nothing; otherwise the configurations the
   * listings name, each path once, the first listing first.
   */
  function GitConfigs(w: World.World): seq<Found> {
    match Util.FindPathInAncestors(w, "", ".git")
    case Err(_) => []
    case Ok(root) => Unique(Flatten(GitGroups(root, GitListings(w))))
  }

  /** The loops of `configPathsFromGit`, with the `seenPaths` set. */
  method ConfigPathsFromGit(w: World.World) returns (paths: seq<Found>)
    ensures paths == GitConfigs(w)
  {
    paths := [];
    var seenPaths: set<string> := {};
    var gitRoot := Util.FindPathInAncestors(w, "", ".git");
    if gitRoot.Err? {
      return;
    }
    var root := gitRoot.value;
    var outs := GitListings(w);
    ghost var groups := GitGroups(root, outs);
    for g := 0 to |outs|
      invariant paths == Unique(Flatten(groups[..g])) && seenPaths == PathSet(Flatten(groups[..g]))
    {
      FlattenStep(groups, g);
      paths, seenPaths := AddListing(root, outs[g], Flatten(groups[..g]), paths, seenPaths);
    }
    assert groups[..|groups|] == groups;
  }

  /** One more group of configurations at the end of the flattened list. */
  lemma FlattenStep(groups: seq<seq<Found>>, g: nat)
    requires g < |groups|
    ensures Flatten(groups[..g + 1]) == Flatten(groups[..g]) + groups[g]
  {
    assert groups[..g + 1][..g] == groups[..g];
  }

  /** One listing: its lines when the command succeeded, nothing when it failed. */
  method AddListing(root: string, out: Option<string>, ghost done: seq<Found>, paths: seq<Found>, seenPaths: set<string>)
      returns (paths': seq<Found>, seenPaths': set<string>)
    requires paths == Unique(done) && seenPaths == PathSet(done)
    ensures paths' == Unique(done + Listing(root, out)) && seenPaths' == PathSet(done + Listing(root, out))
  {
    if out.Some? {
      paths', seenPaths' := AddListed(root, ListedLines(out.value), done, paths, seenPaths);
    } else {
      assert done + Listing(root, out) == done;
      paths', seenPaths' := paths, seenPaths;
    }
  }

  /** The loop over the lines of one listing. */
  method AddListed(root: string, lines: seq<string>, ghost done: seq<Found>, paths: seq<Found>, seenPaths: set<string>)
      returns (paths': seq<Found>, seenPaths': set<string>)
    requires paths == Unique(done) && seenPaths == PathSet(done)
    ensures paths' == Unique(done + Matching(root, lines)) && seenPaths' == PathSet(done + Matching(root, lines))
  {
    paths', seenPaths' := paths, seenPaths;
    assert done + Matching(root, lines[..0]) == done;
    for i := 0 to |lines|
      invariant paths' == Unique(done + Matching(root, lines[..i]))
      invariant seenPaths' == PathSet(done + Matching(root, lines[..i]))
    {
      var line := lines[i];
      assert lines[..i + 1][..i] == lines[..i];
      if Names(line) {
        var fullPath := Paths.Join([root, line]);
        assert done + Matching(root, lines[..i + 1]) == (done + Matching(root, lines[..i])) + [Listed(root, line)];
        UniqueSnoc(done + Matching(root, lines[..i]), Listed(root, line));
        if fullPath !in seenPaths' {
          paths' := paths' + [Found(fullPath, DotDir(root), None)];
          seenPaths' := seenPaths' + {fullPath};
        }
      } else {
        assert done + Matching(root, lines[..i + 1]) == done + Matching(root, lines[..i]);
      }
    }
    assert lines[..|lines|] == lines;
  }

  /** A configuration `x` some listing names. */
  predicate ListedBy(w: World.World, root: string, x: Found) {
    exists g, l :: 0 <= g < 3 && GitListings(w)[g].Some? && l in ListedLines(GitListings(w)[g].value)
                   && Names(l) && x == Listed(root, l)
  }

  lemma {:induction false} FlattenMember(groups: seq<seq<Found>>, x: Found)
    ensures x in Flatten(groups) <==> exists g :: 0 <= g < |groups| && x in groups[g]
    decreases |groups|
  {
    if |groups| > 0 {
      var init := groups[..|groups| - 1];
      FlattenMember(init, x);
      assert forall g :: 0 <= g < |init| ==> init[g] == groups[g];
    }
  }

  /**
   * Inside a work tree, the configurations found are exactly those the listings name: each
   * listed one is there, every one there is listed, and no path is there twice.
   */
  lemma GitConfigsListed(w: World.World, root: string)
    requires Util.FindPathInAncestors(w, "", ".git") == Ok(root)
    ensures DistinctPaths(GitConfigs(w))
    ensures forall x :: x in GitConfigs(w) ==> ListedBy(w, root, x)
    ensures forall x :: ListedBy(w, root, x) ==> x.path in PathSet(GitConfigs(w))
  {
    var groups := GitGroups(root, GitListings(w));
    var all := Flatten(groups);
    UniqueProps(all);
    forall x | x in GitConfigs(w) ensures ListedBy(w, root, x) {
      var i :| 0 <= i < |GitConfigs(w)| && GitConfigs(w)[i] == x;
      assert x in all;
      FlattenMember(groups, x);
      var g :| 0 <= g < |groups| && x in groups[g];
      MatchingExact(root, ListedLines(GitListings(w)[g].value));
    }
    forall x | ListedBy(w, root, x) ensures x.path in PathSet(GitConfigs(w)) {
      var g, l :| 0 <= g < 3 && GitListings(w)[g].Some? && l in ListedLines(GitListings(w)[g].value)
                  && Names(l) && x == Listed(root, l);
      MatchingExact(root, ListedLines(GitListings(w)[g].value));
      assert x in groups[g];
      FlattenMember(groups, x);
      var k :| 0 <= k < |all| && all[k] == x;
      assert x.path in PathSet(all);
    }
  }

  /** Outside a work tree, git contributes nothing. */
  lemma GitConfigsOutside(w: World.World)
    requires Util.FindPathInAncestors(w, "", ".git").Err?
    ensures GitConfigs(w) == []
  {
  }

  // ---------------------------------------------------------------- the working directory and the history

  /** `configsPathsFromPwd`: the configuration file of the working directory, when it exists. */
  function PwdConfigs(w: World.World): (r: seq<Found>)
    ensures |r| <= 1
    ensures |r| == 1 <==> World.Getwd(w).Ok? && Paths.Join([World.Getwd(w).value, DefaultFileName]) in w.stat
    ensures |r| == 1 ==> r[0].knownScripts.None? && r[0].storageDir == DotDir(World.Getwd(w).value)
                         && r[0].path == Paths.Join([World.Getwd(w).value, DefaultFileName])
  {
    match World.Getwd(w)
    case Err(_) => []
    case Ok(workDir) =>
      var inDirConfig := Paths.Join([workDir, DefaultFileName]);
      if inDirConfig in w.stat then [Found(inDirConfig, DotDir(workDir), None)] else []
  }

  /** The scripts of one `known_scripts` entry, each a cached script object. */
  function DecodeScriptList(items: seq<Json.Json>): (r: Result<seq<FoundScript>>)
    ensures r.Ok? ==> |r.value| == |items|
  {
    if |items| == 0 then Ok([])
    else if !items[0].Obj? then
      Err("json: cannot unmarshal " + Json.KindName(items[0]) + " into Go value of type main.foundScript")
    else
      var s :- DecodeScript(items[0].members);
      var rest :- DecodeScriptList(items[1..]);
      Ok([s] + rest)
  }

  /** The entries of one `known_scripts` object merged into the map; a later name replaces an earlier one. */
  function MergeKnown(ms: Json.Members, acc: ScriptMap): (r: Result<ScriptMap>)
    ensures Json.DistinctKeys(acc) && r.Ok? ==> Json.DistinctKeys(r.value)
    decreases |ms|
  {
    if |ms| == 0 then Ok(acc)
    else match ms[0].1
      case Null => MergeKnown(ms[1..], Json.Put(acc, ms[0].0, []))
      case Arr(items) =>
        var scripts :- DecodeScriptList(items);
        MergeKnown(ms[1..], Json.Put(acc, ms[0].0, scripts))
      case _ => Err(Json.TypeError(ms[0].1, "known_scripts", "[]*main.foundScript"))
  }

  /** The scripts a history entry records: `null` clears the map, an object is merged into it. */
  function KnownFrom(ms: Json.Members, acc: Option<ScriptMap>): (r: Result<Option<ScriptMap>>)
    ensures (acc.Some? ==> Json.DistinctKeys(acc.value)) && r.Ok? && r.value.Some? ==> Json.DistinctKeys(r.value.value)
    decreases |ms|
  {
    if |ms| == 0 then Ok(acc)
    else if !Json.KeyMatches(ms[0].0, "known_scripts") then KnownFrom(ms[1..], acc)
    else match ms[0].1
      case Null => KnownFrom(ms[1..], None)
      case Obj(entries) =>
        var m :- MergeKnown(entries, if acc.Some? then acc.value else []);
        KnownFrom(ms[1..], Some(m))
      case _ => Err(Json.TypeError(ms[0].1, "known_scripts", "map[string][]*main.foundScript"))
  }

  /** A history entry whose recorded scripts form a map. */
  predicate WellKnown(f: Found) {
    f.knownScripts.Some? ==> Json.DistinctKeys(f.knownScripts.value)
  }

  function DecodeFound(ms: Json.Members): (r: Result<Found>)
    ensures r.Ok? ==> WellKnown(r.value)
  {
    var path :- Json.GetString(ms, "path");
    var storageDir :- Json.GetString(ms, "storage_dir");
    var known :- KnownFrom(ms, None);
    Ok(Found(path, storageDir, known))
  }

  function DecodeFounds(items: seq<Json.Json>): (r: Result<seq<Found>>)
  {
    if |items| == 0 then Ok([])
    else if !items[0].Obj? then
      Err("json: cannot unmarshal " + Json.KindName(items[0]) + " into Go value of type main.foundConfig")
    else
      var f :- DecodeFound(items[0].members);
      var rest :- DecodeFounds(items[1..]);
      Ok([f] + rest)
  }

  /** Every decoded entry records its scripts as a map. */
  lemma {:induction false} FoundsWellKnown(items: seq<Json.Json>)
    ensures DecodeFounds(items).Ok? ==> forall i :: 0 <= i < |DecodeFounds(items).value| ==> WellKnown(DecodeFounds(items).value[i])
  {
    if |items| > 0 && items[0].Obj? && DecodeFound(items[0].members).Ok? {
      var rest := DecodeFounds(items[1..]);
      if rest.Ok? {
        var f := DecodeFound(items[0].members).value;
        assert DecodeFounds(items) == Ok([f] + rest.value);
        FoundsWellKnown(items[1..]);
        WellKnownCons(f, rest.value);
      }
    }
  }

  lemma WellKnownCons(f: Found, rest: seq<Found>)
    requires WellKnown(f) && forall i :: 0 <= i < |rest| ==> WellKnown(rest[i])
    ensures forall i :: 0 <= i < |[f] + rest| ==> WellKnown(([f] + rest)[i])
  {
  }

  /** The history as `json.Unmarshal` decodes it into `[]*foundConfig`. */
  function DecodeHistory(j: Json.Json): (r: Result<seq<Found>>)
    ensures r.Ok? ==> forall i :: 0 <= i < |r.value| ==> WellKnown(r.value[i])
  {
    match j
    case Null => Ok([])
    case Arr(items) => FoundsWellKnown(items); DecodeFounds(items)
    case _ => Err("json: cannot unmarshal " + Json.KindName(j) + " into Go value of type []*main.foundConfig")
  }

  /** `configPathsFromHistory`: nothing when the file cannot be read or decoded. */
  function HistoryConfigs(w: World.World): (r: seq<Found>)
    ensures forall i :: 0 <= i < |r| ==> WellKnown(r[i])
  {
    var p := SeenConfigsPath(w);
    if p !in w.files then []
    else match w.parseJson(w.files[p])
      case None => []
      case Some(j) => match DecodeHistory(j) case Ok(fs) => fs case Err(_) => []
  }

  function ScriptListJson(xs: seq<FoundScript>): Json.Json {
    Json.Arr(seq(|xs|, i requires 0 <= i < |xs| => ScriptJson(xs[i])))
  }

  function KnownMembers(m: ScriptMap): Json.Members {
    seq(|m|, i requires 0 <= i < |m| => (m[i].0, ScriptListJson(m[i].1)))
  }

  /** `known_scripts` as written: a nil map is `null`. */
  function KnownJson(k: Option<ScriptMap>): Json.Json {
    match k
    case None => Json.Null
    case Some(m) => Json.Obj(KnownMembers(m))
  }

  function FoundJson(f: Found): Json.Json {
    Json.Obj([("path", Json.Str(f.path)), ("storage_dir", Json.Str(f.storageDir)),
              ("known_scripts", KnownJson(f.knownScripts))])
  }

  /** The history as `json.Marshal` writes the unique configurations. */
  function HistoryJson(fs: seq<Found>): Json.Json {
    Json.Arr(seq(|fs|, i requires 0 <= i < |fs| => FoundJson(fs[i])))
  }

  // ---------------------------------------------------------------- the history reads back what was written

  /** A list whose first item is a written script decodes to that script followed by the rest. */
  lemma ScriptListStep(items: seq<Json.Json>, s: FoundScript, rest: seq<FoundScript>)
    requires |items| > 0 && items[0] == ScriptJson(s)
    requires DecodeScriptList(items[1..]) == Ok(rest)
    ensures DecodeScriptList(items) == Ok([s] + rest)
  {
    ScriptRoundTrip(s);
  }

  lemma ScriptListTail(xs: seq<FoundScript>)
    requires |xs| > 0
    ensures ScriptListJson(xs).items[1..] == ScriptListJson(xs[1..]).items
  {
  }

  /** A written list of scripts decodes to the same scripts. */
  lemma {:induction false} ScriptListRoundTrip(xs: seq<FoundScript>)
    ensures DecodeScriptList(ScriptListJson(xs).items) == Ok(xs)
    decreases |xs|
  {
    if |xs| > 0 {
      assert [xs[0]] + xs[1..] == xs;
      ScriptListRoundTrip(xs[1..]);
      ScriptListTail(xs);
      ScriptListStep(ScriptListJson(xs).items, xs[0], xs[1..]);
    }
  }

  /** Merging the written entries of a map behind `acc` appends them, as long as all names differ. */
  lemma {:induction false} MergeKnownAppend(m: ScriptMap, acc: ScriptMap)
    requires Json.DistinctKeys(acc + m)
    ensures MergeKnown(KnownMembers(m), acc) == Ok(acc + m)
    decreases |m|
  {
    if |m| == 0 {
      assert acc + m == acc;
    } else {
      var ms := KnownMembers(m);
      assert ms[1..] == KnownMembers(m[1..]);
      ScriptListRoundTrip(m[0].1);
      assert MergeKnown(ms, acc) == MergeKnown(ms[1..], Json.Put(acc, m[0].0, m[0].1));
      PutFront(acc, m);
      MergeKnownAppend(m[1..], acc + [m[0]]);
    }
  }

  /** A member under another key leaves the recorded scripts alone. */
  lemma KnownSkip(ms: Json.Members, acc: Option<ScriptMap>)
    requires |ms| > 0 && !Json.KeyMatches(ms[0].0, "known_scripts")
    ensures KnownFrom(ms, acc) == KnownFrom(ms[1..], acc)
  {
  }

  /** A `known_scripts` object is merged into the recorded scripts, and reading goes on. */
  lemma KnownObjStep(ms: Json.Members, acc: Option<ScriptMap>, m: ScriptMap)
    requires |ms| > 0 && Json.KeyMatches(ms[0].0, "known_scripts") && ms[0].1.Obj?
    requires MergeKnown(ms[0].1.members, if acc.Some? then acc.value else []) == Ok(m)
    ensures KnownFrom(ms, acc) == KnownFrom(ms[1..], Some(m))
  {
  }

  /** The written `known_scripts` member alone reads back as the recorded scripts. */
  lemma KnownLast(f: Found)
    requires WellKnown(f)
    ensures KnownFrom([("known_scripts", KnownJson(f.knownScripts))], None) == Ok(f.knownScripts)
  {
    var ms := [("known_scripts", KnownJson(f.knownScripts))];
    assert ms[1..] == [];
    if f.knownScripts.Some? {
      var m := f.knownScripts.value;
      assert [] + m == m;
      MergeKnownAppend(m, []);
      KnownObjStep(ms, None, m);
    }
  }

  /** The scripts of a written entry read back: `path` and `storage_dir` are passed over. */
  lemma KnownRoundTrip(f: Found)
    requires WellKnown(f)
    ensures KnownFrom(FoundJson(f).members, None) == Ok(f.knownScripts)
  {
    var ms := FoundJson(f).members;
    Json.KeyMismatch("path", "known_scripts");
    Json.KeyMismatch("storage_dir", "known_scripts");
    KnownSkip(ms, None);
    KnownSkip(ms[1..], None);
    assert ms[1..][1..] == [("known_scripts", KnownJson(f.knownScripts))];
    KnownLast(f);
  }

  /** The path and the storage directory of a written entry read back. */
  lemma FoundStrings(f: Found)
    ensures Json.GetString(FoundJson(f).members, "path") == Ok(f.path)
    ensures Json.GetString(FoundJson(f).members, "storage_dir") == Ok(f.storageDir)
  {
    var ms := FoundJson(f).members;
    assert Json.DistinctInitials(ms);
    Json.ValuesAt(ms, 0);
    Json.ValuesAt(ms, 1);
    Json.GetStringOnce(ms, "path", f.path);
    Json.GetStringOnce(ms, "storage_dir", f.storageDir);
  }

  lemma FoundFields(ms: Json.Members, f: Found)
    requires Json.GetString(ms, "path") == Ok(f.path)
    requires Json.GetString(ms, "storage_dir") == Ok(f.storageDir)
    requires KnownFrom(ms, None) == Ok(f.knownScripts)
    ensures DecodeFound(ms) == Ok(f)
  {
  }

  /** A written history entry decodes to the same entry. */
  lemma FoundRoundTrip(f: Found)
    requires WellKnown(f)
    ensures DecodeFound(FoundJson(f).members) == Ok(f)
  {
    FoundStrings(f);
    KnownRoundTrip(f);
    FoundFields(FoundJson(f).members, f);
  }

  /** A history whose first item is a written entry decodes to that entry followed by the rest. */
  lemma FoundsStep(items: seq<Json.Json>, f: Found, rest: seq<Found>)
    requires WellKnown(f) && |items| > 0 && items[0] == FoundJson(f)
    requires DecodeFounds(items[1..]) == Ok(rest)
    ensures DecodeFounds(items) == Ok([f] + rest)
  {
    FoundRoundTrip(f);
  }

  lemma HistoryTail(fs: seq<Found>)
    requires |fs| > 0
    ensures HistoryJson(fs).items[1..] == HistoryJson(fs[1..]).items
  {
  }

  /** A written history decodes to the same entries. */
  lemma {:induction false} FoundsRoundTrip(fs: seq<Found>)
    requires forall i :: 0 <= i < |fs| ==> WellKnown(fs[i])
    ensures DecodeFounds(HistoryJson(fs).items) == Ok(fs)
    decreases |fs|
  {
    if |fs| > 0 {
      assert [fs[0]] + fs[1..] == fs;
      FoundsRoundTrip(fs[1..]);
      HistoryTail(fs);
      FoundsStep(HistoryJson(fs).items, fs[0], fs[1..]);
    }
  }

  /** Decoding the history written for `fs` gives back `fs`. */
  lemma HistoryRoundTrip(fs: seq<Found>)
    requires forall i :: 0 <= i < |fs| ==> WellKnown(fs[i])
    ensures DecodeHistory(HistoryJson(fs)) == Ok(fs)
  {
    FoundsRoundTrip(fs);
  }

  // ---------------------------------------------------------------- LoadConfigs

  /** The lists `LoadConfigs` walks: git's, the working directory's, then the history's when used. */
  function Joined(git: seq<Found>, pwd: seq<Found>, history: seq<Found>, useHistory: bool): seq<Found> {
    git + pwd + (if useHistory then history else [])
  }

  /** The configurations `LoadConfigs` returns. */
  function Configs(w: World.World, useHistory: bool): seq<Found> {
    Unique(Joined(GitConfigs(w), PwdConfigs(w), HistoryConfigs(w), useHistory))
  }

  /** The files after `LoadConfigs`: with history in use, the history holds the returned list. */
  function HistoryFiles(w: World.World, useHistory: bool, configs: seq<Found>): map<string, string> {
    if useHistory then w.files[SeenConfigsPath(w) := Json.Encode(HistoryJson(configs))] else w.files
  }

  /** `LoadConfigs`, without the prefetch goroutines. */
  method LoadConfigs(w: World.World, useHistory: bool) returns (configs: seq<Found>, files: map<string, string>)
    ensures configs == Configs(w, useHistory)
    ensures files == HistoryFiles(w, useHistory, configs)
  {
    var fromGit := ConfigPathsFromGit(w);
    var fromPwd := PwdConfigs(w);
    var fromHistory := HistoryConfigs(w);
    var allDiscovered := [fromGit, fromPwd];
    if useHistory {
      allDiscovered := allDiscovered + [fromHistory];
    }
    FlattenOf(fromGit, fromPwd, fromHistory, useHistory);
    configs := Dedupe(allDiscovered);
    files := w.files;
    if useHistory {
      files := files[SeenConfigsPath(w) := Json.Encode(HistoryJson(configs))];
    }
  }

  lemma FlattenOf(git: seq<Found>, pwd: seq<Found>, history: seq<Found>, useHistory: bool)
    ensures Flatten([git, pwd] + (if useHistory then [history] else [])) == Joined(git, pwd, history, useHistory)
  {
    var two := [git, pwd];
    assert two[..1] == [git] && [git][..0] == [];
    assert Flatten([git]) == git;
    assert Flatten(two) == git + pwd;
    if useHistory {
      var three := two + [history];
      assert three[..2] == two;
      assert Flatten(three) == git + pwd + history;
    } else {
      assert two + [] == two;
    }
  }

  /** Git's list holds distinct paths and records no scripts. */
  lemma GitConfigsDistinct(w: World.World)
    ensures DistinctPaths(GitConfigs(w))
    ensures forall i :: 0 <= i < |GitConfigs(w)| ==> GitConfigs(w)[i].knownScripts.None?
  {
    match Util.FindPathInAncestors(w, "", ".git")
    case Err(_) =>
    case Ok(root) =>
      GitConfigsListed(w, root);
      forall i | 0 <= i < |GitConfigs(w)| ensures GitConfigs(w)[i].knownScripts.None? {
        assert ListedBy(w, root, GitConfigs(w)[i]);
      }
  }

  /**
   * The joined lists de-duplicated: no path twice, none lost, and each configuration kept
   * is the first of its path.
   */
  lemma JoinedUnique(git: seq<Found>, pwd: seq<Found>, history: seq<Found>, useHistory: bool)
    ensures var u := Unique(Joined(git, pwd, history, useHistory));
            DistinctPaths(u)
            && PathSet(u) == PathSet(git) + PathSet(pwd) + (if useHistory then PathSet(history) else {})
    ensures var all := Joined(git, pwd, history, useHistory); var u := Unique(all);
            forall i :: 0 <= i < |u| ==> exists k :: 0 <= k < |all| && all[k] == u[i] && FirstOf(all, k)
  {
    var all := Joined(git, pwd, history, useHistory);
    UniqueProps(all);
    UniqueKeepsFirst(all);
    PathSetAppend(git, pwd);
    PathSetAppend(git + pwd, if useHistory then history else []);
  }

  /** A list with distinct paths in front stays in front, whole and in order. */
  lemma JoinedGitFirst(git: seq<Found>, pwd: seq<Found>, history: seq<Found>, useHistory: bool)
    requires DistinctPaths(git)
    ensures var u := Unique(Joined(git, pwd, history, useHistory)); |git| <= |u| && u[..|git|] == git
  {
    var rest := pwd + (if useHistory then history else []);
    assert Joined(git, pwd, history, useHistory) == git + rest;
    UniqueFresh([], git);
    assert [] + git == git;
    UniqueExtends(git, rest);
  }

  /** Adding the history only appends, and only paths git and the working directory did not give. */
  lemma JoinedHistoryAdds(git: seq<Found>, pwd: seq<Found>, history: seq<Found>)
    ensures var without := Unique(Joined(git, pwd, history, false));
            var with := Unique(Joined(git, pwd, history, true));
            |without| <= |with| && with[..|without|] == without
            && forall i :: |without| <= i < |with| ==> with[i].path !in PathSet(git + pwd)
  {
    var a := git + pwd;
    assert a + [] == a;
    UniqueExtends(a, history);
  }

  /**
   * `LoadConfigs` returns no path twice and loses none, and each configuration it returns
   * is the first of its path in the order git, working directory, history.
   */
  lemma ConfigsUnique(w: World.World, useHistory: bool)
    ensures var c := Configs(w, useHistory);
            DistinctPaths(c)
            && PathSet(c) == PathSet(GitConfigs(w)) + PathSet(PwdConfigs(w)) + (if useHistory then PathSet(HistoryConfigs(w)) else {})
    ensures var all := Joined(GitConfigs(w), PwdConfigs(w), HistoryConfigs(w), useHistory); var c := Configs(w, useHistory);
            forall i :: 0 <= i < |c| ==> exists k :: 0 <= k < |all| && all[k] == c[i] && FirstOf(all, k)
  {
    var git, pwd, history := GitConfigs(w), PwdConfigs(w), HistoryConfigs(w);
    var all := Joined(git, pwd, history, useHistory);
    var c := Configs(w, useHistory);
    assert c == Unique(all);
    JoinedUnique(git, pwd, history, useHistory);
    forall i | 0 <= i < |c| ensures exists k :: 0 <= k < |all| && all[k] == c[i] && FirstOf(all, k) {
      assert c[i] == Unique(all)[i];
    }
  }

  /** Git's configurations come first, all of them and in git's order. */
  lemma GitComesFirst(w: World.World, useHistory: bool)
    ensures var c := Configs(w, useHistory); var git := GitConfigs(w);
            |git| <= |c| && c[..|git|] == git
  {
    GitConfigsDistinct(w);
    JoinedGitFirst(GitConfigs(w), PwdConfigs(w), HistoryConfigs(w), useHistory);
  }

  /**
   * Using the history only adds configurations after the others, each with a path neither
   * git nor the working directory gave.
   */
  lemma HistoryOnlyAdds(w: World.World)
    ensures var without := Configs(w, false); var with := Configs(w, true);
            |without| <= |with| && with[..|without|] == without
            && forall i :: |without| <= i < |with| ==> with[i].path !in PathSet(GitConfigs(w) + PwdConfigs(w))
  {
    JoinedHistoryAdds(GitConfigs(w), PwdConfigs(w), HistoryConfigs(w));
  }

  /** Every configuration `LoadConfigs` returns can be written to the history and read back. */
  lemma ConfigsWellKnown(w: World.World, useHistory: bool)
    ensures forall i :: 0 <= i < |Configs(w, useHistory)| ==> WellKnown(Configs(w, useHistory)[i])
  {
    var git := GitConfigs(w);
    var all := Joined(git, PwdConfigs(w), HistoryConfigs(w), useHistory);
    UniqueProps(all);
    GitConfigsDistinct(w);
    forall x | x in all ensures WellKnown(x) {
      if x in git {
        var i :| 0 <= i < |git| && git[i] == x;
      }
    }
  }

  /**
   * With history in use, a second `LoadConfigs` over the files the first one left finds
   * the same configurations and writes the same history, provided the history text reads
   * back as the JSON it was written from.
   */
  lemma HistoryStable(w: World.World)
    requires var c := Configs(w, true); w.parseJson(Json.Encode(HistoryJson(c))) == Some(HistoryJson(c))
    ensures var c := Configs(w, true);
            var w' := w.(files := HistoryFiles(w, true, c));
            Configs(w', true) == c && HistoryFiles(w', true, Configs(w', true)) == HistoryFiles(w, true, c)
  {
    var c := Configs(w, true);
    var w' := w.(files := HistoryFiles(w, true, c));
    FilesFramed(w, HistoryFiles(w, true, c));
    assert HistoryConfigs(w') == c by {
      ConfigsWellKnown(w, true);
      HistoryReadsBack(w, c);
    }
    UniqueAgain(GitConfigs(w) + PwdConfigs(w), HistoryConfigs(w));
  }

  /** Finding the configuration files does not read file contents. */
  lemma FilesFramed(w: World.World, files: map<string, string>)
    ensures GitConfigs(w.(files := files)) == GitConfigs(w)
    ensures PwdConfigs(w.(files := files)) == PwdConfigs(w)
  {
    if w.cwd.Some? {
      Util.SearchFramed(w, w.(files := files), w.cwd.value, ".git");
    }
  }

  /** The history file written for well-known configurations reads back as the same list. */
  lemma HistoryReadsBack(w: World.World, c: seq<Found>)
    requires forall i :: 0 <= i < |c| ==> WellKnown(c[i])
    requires w.parseJson(Json.Encode(HistoryJson(c))) == Some(HistoryJson(c))
    ensures HistoryConfigs(w.(files := HistoryFiles(w, true, c))) == c
  {
    HistoryRoundTrip(c);
  }

}
