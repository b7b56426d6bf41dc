/**
 * modules/tmux_window.go: the `tmux_window` unit.  Activation opens a window named
 * `<project>-<name>` in the current tmux session, one pane per configured pane, after
 * killing any window that already has that name; it does nothing when that window is
 * the current one.  Deactivation emits nothing.
 */
module Tmux {
  import opened Wrappers
  import Json
  import Util
  import World
  import Strs
  import ProjectPaths

  datatype Pane = Pane(root: string, commands: seq<string>)

  /** `TmuxWindowConfig`, after the constructor has filled in the defaults. */
  datatype Config = Config(disableDestroyExisting: bool, name: string, panes: seq<Pane>, layout: string)

  datatype Unit = Unit(config: Config, ctx: ProjectPaths.Ctx)

  /** `NameID`: a window as `tmux list-windows -F '#I|#W'` reports it. */
  datatype Window = Window(id: string, name: string)

  const NoSession: string := "no last tmux session and use_session not passed in config"
  const IndexPanic: string := "runtime error: index out of range [1] with length 1"

  function DecodePane(ms: Json.Members): Result<Pane> {
    var root :- Json.GetString(ms, "Root");
    var commands :- Json.GetStrings(ms, "Commands");
    Ok(Pane(root, commands))
  }

  function DecodePanes(items: seq<Json.Members>): (r: Result<seq<Pane>>)
    ensures r.Ok? ==> |r.value| == |items|
  {
    if |items| == 0 then Ok([])
    else
      var p :- DecodePane(items[0]);
      var rest :- DecodePanes(items[1..]);
      Ok([p] + rest)
  }

  /** The payload as `UnmarshalAndValidate` leaves it: decoded, with a name required. */
  function Decode(raw: Json.Raw): (r: Result<Config>)
    ensures r.Ok? ==> r.value.name != ""
    ensures raw.Absent? ==> r.Err?
  {
    var ms :- Util.UnmarshalEmpty(raw, "modules.TmuxWindowConfig");
    var disable :- Json.GetBool(ms, "disable_destroy_existing");
    var name :- Json.GetString(ms, "Name");
    var pms :- Json.GetObjects(ms, "Panes");
    var panes :- DecodePanes(pms);
    var layout :- Json.GetString(ms, "Layout");
    if name == "" then Err("Key: 'TmuxWindowConfig.Name' Error:Field validation for 'Name' failed on the 'required' tag")
    else Ok(Config(disable, name, panes, layout))
  }

  /**
   * `NewTmuxModule`: decode and validate the payload, then default the layout to "tiled"
   * and an empty pane list to one pane at the project root.
   */
  function New(ctx: ProjectPaths.Ctx, raw: Json.Raw): (r: Result<Unit>)
    ensures r.Ok? <==> Decode(raw).Ok?
    ensures r.Ok? ==> r.value.ctx == ctx && r.value.config.name == Decode(raw).value.name
    ensures r.Ok? ==> |r.value.config.panes| >= 1 && r.value.config.layout != ""
  {
    var c :- Decode(raw);
    Ok(Unit(Config(c.disableDestroyExisting, c.name, if |c.panes| == 0 then [Pane("", [])] else c.panes,
                   if c.layout == "" then "tiled" else c.layout), ctx))
  }

  // ---------------------------------------------------------------- the window list

  /**
   * One line of the listing as `tmuxListWindows` reads it: `strings.Split(line, "|")`,
   * the first piece as the index and the second as the name.  A line without '|' makes
   * the Go code index past the end.
   */
  function ParseWindowAsWritten(line: string): (r: Result<Window>)
    ensures r.Ok? <==> '|' in line
    ensures r.Ok? ==> '|' !in r.value.id && '|' !in r.value.name
  {
    var data := Strs.Split(line, '|');
    if |data| < 2 then
      assert '|' !in line by { if '|' in line { Strs.SplitSeparates(line, '|'); } }
      Err(IndexPanic)
    else
      assert '|' in line by { if '|' !in line { Strs.SplitNoSeparator(line, '|'); } }
      Strs.SplitPiecesOmitSeparator(line, '|', 0);
      Strs.SplitPiecesOmitSeparator(line, '|', 1);
      Ok(Window(data[0], data[1]))
  }

  /** The first position of `c` in `s`, or -1. */
  function IndexOf(s: string, c: char): (i: int)
    ensures -1 <= i < |s|
    ensures i >= 0 ==> s[i] == c && c !in s[..i]
    ensures i == -1 <==> c !in s
  {
    if |s| == 0 then -1
    else if s[0] == c then 0
    else
      var k := IndexOf(s[1..], c);
      if k == -1 then
        assert forall j :: 1 <= j < |s| ==> s[j] == s[1..][j - 1];
        -1
      else
        assert s[..k + 1] == [s[0]] + s[1..][..k];
        k + 1
  }

  /** One line of the listing, corrected: the name is everything after the first '|'. */
  function ParseWindow(line: string): (r: Result<Window>)
    ensures r.Ok? <==> '|' in line
  {
    var k := IndexOf(line, '|');
    if k < 0 then Err(IndexPanic) else Ok(Window(line[..k], line[k + 1..]))
  }

  /** The listing line tmux prints for a window, with the `#I|#W` format. */
  function FormatWindow(win: Window): string {
    win.id + "|" + win.name
  }

  /** Parsing the line tmux prints for a window gives the window back, whatever its name. */
  lemma ParseFormatted(win: Window)
    requires '|' !in win.id
    ensures ParseWindow(FormatWindow(win)) == Ok(win)
  {
    var line := FormatWindow(win);
    var k := IndexOf(line, '|');
    assert line[|win.id|] == '|';
    assert line[..|win.id|] == win.id;
    assert k == |win.id|;
    assert line[k + 1..] == win.name;
  }

  /** The code as written parses a window back only when its name has no '|'. */
  lemma AsWrittenParsesPlainNames(win: Window)
    requires '|' !in win.id && '|' !in win.name
    ensures ParseWindowAsWritten(FormatWindow(win)) == Ok(win)
  {
    Strs.SplitAtFirst(win.id, '|', win.name);
    Strs.SplitNoSeparator(win.name, '|');
    assert win.id + "|" + win.name == win.id + ['|'] + win.name;
  }

  /** A window named "p-a|b" (unit "a|b" of project "p") is read back as "p-a". */
  lemma AsWrittenTruncatesName()
    ensures ParseWindowAsWritten(FormatWindow(Window("2", "p-a|b"))) == Ok(Window("2", "p-a"))
    ensures ParseWindow(FormatWindow(Window("2", "p-a|b"))) == Ok(Window("2", "p-a|b"))
  {
    var line := FormatWindow(Window("2", "p-a|b"));
    assert line == "2" + ['|'] + ("p-a" + ['|'] + "b");
    Strs.SplitAtFirst("2", '|', "p-a" + ['|'] + "b");
    Strs.SplitAtFirst("p-a", '|', "b");
    Strs.SplitNoSeparator("b", '|');
    ParseFormatted(Window("2", "p-a|b"));
  }

  /** Every line parsed as the program parses it, or the first line that cannot be. */
  function ParseWindows(lines: seq<string>): (r: Result<seq<Window>>)
    ensures r.Ok? ==> |r.value| == |lines| && forall i :: 0 <= i < |lines| ==> ParseWindowAsWritten(lines[i]) == Ok(r.value[i])
    ensures r.Ok? <==> forall i :: 0 <= i < |lines| ==> '|' in lines[i]
  {
    if |lines| == 0 then Ok([])
    else
      var init :- ParseWindows(lines[..|lines| - 1]);
      var last :- ParseWindowAsWritten(lines[|lines| - 1]);
      Ok(init + [last])
  }

  /**
   * `tmuxListWindows`: the listing split into lines, each parsed; it fails when tmux does
   * or when some line holds no '|'.
   */
  function ListedWindows(w: World.World): (r: Result<seq<Window>>)
    ensures World.Output(w.tmux.windows).Err? ==> r == Err(World.Output(w.tmux.windows).msg)
    ensures World.Output(w.tmux.windows).Ok? ==>
              var lines := Strs.Split(World.Output(w.tmux.windows).value, '\n');
              (r.Ok? <==> forall i :: 0 <= i < |lines| ==> '|' in lines[i])
              && (r.Ok? ==> |r.value| == |lines|)
  {
    var output :- World.Output(w.tmux.windows);
    var windows := ParseWindows(Strs.Split(output, '\n'));
    assert windows.Ok? <==> forall i :: 0 <= i < |Strs.Split(output, '\n')| ==> '|' in Strs.Split(output, '\n')[i];
    windows
  }

  method ListWindows(w: World.World) returns (r: Result<seq<Window>>)
    ensures r == ListedWindows(w)
  {
    var output := World.Output(w.tmux.windows);
    if output.Err? {
      return Err(output.msg);
    }
    var lines := Strs.Split(output.value, '\n');
    var windows: seq<Window> := [];
    var i := 0;
    while i < |lines|
      invariant 0 <= i <= |lines|
      invariant ParseWindows(lines[..i]) == Ok(windows)
    {
      assert lines[..i + 1][..i] == lines[..i];
      var data := Strs.Split(lines[i], '|');
      if |data| < 2 {
        ParseWindowsFailure(lines, i);
        return Err(IndexPanic);
      }
      windows := windows + [Window(data[0], data[1])];
      i := i + 1;
    }
    assert lines[..i] == lines;
    r := Ok(windows);
  }

  lemma {:induction false} ParseWindowsFailure(lines: seq<string>, i: nat)
    requires i < |lines| && ParseWindows(lines[..i]).Ok? && ParseWindowAsWritten(lines[i]).Err?
    ensures ParseWindows(lines) == Err(IndexPanic)
    decreases |lines| - i
  {
    if i + 1 < |lines| {
      assert lines[..|lines| - 1][..i] == lines[..i];
      ParseWindowsFailure(lines[..|lines| - 1], i);
    } else {
      assert lines[..|lines| - 1] == lines[..i];
    }
  }

  // ---------------------------------------------------------------- activation

  function KillLine(win: Window): string {
    "tmux kill-window -t " + win.id
  }

  /** One kill line for each listed window with the target's name, in listing order. */
  function Kills(windows: seq<Window>, target: string): seq<string> {
    if |windows| == 0 then []
    else
      Kills(windows[..|windows| - 1], target)
      + (if windows[|windows| - 1].name == target then [KillLine(windows[|windows| - 1])] else [])
  }

  predicate Listed(windows: seq<Window>, target: string) {
    exists i :: 0 <= i < |windows| && windows[i].name == target
  }

  /** The lines for the pane at position `i`: open it, type its commands, set the layout. */
  function PaneLines(u: Unit, target: string, i: nat, pane: Pane): (r: seq<string>)
    ensures |r| == (if |pane.commands| > 0 then 3 else 2)
  {
    var dir := ProjectPaths.RootPath(u.ctx, [pane.root]);
    (if i == 0 then ["lastWindow=$(tmux new-window -P -c " + dir + " -n " + target + ")"]
     else ["lastWindow=$(tmux split-window -P -c " + dir + " -t \"${lastWindow}\")"])
    + (if |pane.commands| > 0 then ["tmux send-keys -t \"${lastWindow}\" '" + Strs.Join(pane.commands, ";") + "' C-m"]
       else [])
    + ["tmux select-layout -t \"${lastWindow}\" " + u.config.layout]
  }

  /** The lines of the first `n` panes. */
  function PanesLines(u: Unit, target: string, n: nat): seq<string>
    requires n <= |u.config.panes|
  {
    if n == 0 then [] else PanesLines(u, target, n - 1) + PaneLines(u, target, n - 1, u.config.panes[n - 1])
  }

  function Target(u: Unit): string {
    u.ctx.projectName + "-" + u.config.name
  }

  /** The current window's name; a failure to ask reads as "". */
  function CurrentWindow(w: World.World): string {
    match World.Output(w.tmux.currentWindow)
    case Ok(s) => s
    case Err(_) => ""
  }

  /**
   * What `ShellActivateCommands` emits, or the error that stops it: nothing outside a
   * session or from the target window itself; otherwise the panes are opened last, and
   * with destroying disabled no window has the target's name.
   */
  function Activation(u: Unit, w: World.World): (r: Result<seq<string>>)
    ensures World.Output(w.tmux.session) == Ok("") ==> r == Err(NoSession)
    ensures r.Ok? && r.value != [] ==> Target(u) != CurrentWindow(w)
    ensures r.Ok? && Target(u) != CurrentWindow(w) ==>
              var panes := PanesLines(u, Target(u), |u.config.panes|);
              ListedWindows(w).Ok? && |panes| <= |r.value| && r.value[|r.value| - |panes|..] == panes
              && (u.config.disableDestroyExisting ==> !Listed(ListedWindows(w).value, Target(u)))
  {
    var session :- World.Output(w.tmux.session);
    if session == "" then Err(NoSession)
    else if Target(u) == CurrentWindow(w) then Ok([])
    else
      match ListedWindows(w)
      case Err(e) => Err("could not list current tmux windows with err " + e)
      case Ok(windows) =>
        if u.config.disableDestroyExisting && Listed(windows, Target(u)) then
          Err("window with name " + Target(u) + " already exists and disable_destory_existing set to true")
        else Ok(Kills(windows, Target(u)) + PanesLines(u, Target(u), |u.config.panes|))
  }

  /** The kill loop: a window with the target's name is killed, or is an error when destroying is disabled. */
  method KillExisting(windows: seq<Window>, target: string, disable: bool) returns (r: Result<seq<string>>)
    ensures r == if disable && Listed(windows, target)
                 then Err("window with name " + target + " already exists and disable_destory_existing set to true")
                 else Ok(Kills(windows, target))
  {
    var commands: seq<string> := [];
    var i := 0;
    while i < |windows|
      invariant 0 <= i <= |windows|
      invariant commands == Kills(windows[..i], target)
      invariant disable ==> !Listed(windows[..i], target)
    {
      assert windows[..i + 1][..i] == windows[..i];
      if windows[i].name == target {
        if disable {
          assert windows[..i + 1][i].name == target;
          ListedPrefix(windows, i + 1, target);
          return Err("window with name " + target + " already exists and disable_destory_existing set to true");
        }
        commands := commands + [KillLine(windows[i])];
      }
      assert disable ==> !Listed(windows[..i + 1], target) by {
        forall j | 0 <= j < i
          ensures windows[..i + 1][j] == windows[..i][j]
        {
        }
      }
      i := i + 1;
    }
    assert windows[..i] == windows;
    r := Ok(commands);
  }

  /** The pane loop. */
  method OpenPanes(u: Unit, target: string) returns (commands: seq<string>)
    ensures commands == PanesLines(u, target, |u.config.panes|)
  {
    var panes := u.config.panes;
    commands := [];
    var k := 0;
    while k < |panes|
      invariant 0 <= k <= |panes|
      invariant commands == PanesLines(u, target, k)
    {
      var lines := OpenPane(u, target, k, panes[k]);
      commands := commands + lines;
      k := k + 1;
    }
  }

  /** One turn of the pane loop: open the pane, type its commands, set the layout. */
  method OpenPane(u: Unit, target: string, k: nat, pane: Pane) returns (lines: seq<string>)
    ensures lines == PaneLines(u, target, k, pane)
  {
    var dir := ProjectPaths.RootPath(u.ctx, [pane.root]);
    var opening;
    if k == 0 {
      opening := "lastWindow=$(tmux new-window -P -c " + dir + " -n " + target + ")";
    } else {
      opening := "lastWindow=$(tmux split-window -P -c " + dir + " -t \"${lastWindow}\")";
    }
    lines := [opening];
    if |pane.commands| > 0 {
      lines := lines + ["tmux send-keys -t \"${lastWindow}\" '" + Strs.Join(pane.commands, ";") + "' C-m"];
    }
    lines := lines + ["tmux select-layout -t \"${lastWindow}\" " + u.config.layout];
  }

  method ShellActivateCommands(u: Unit, w: World.World) returns (r: Result<seq<string>>)
    ensures r == Activation(u, w)
  {
    var session := World.Output(w.tmux.session);
    if session.Err? {
      return Err(session.msg);
    }
    if session.value == "" {
      return Err(NoSession);
    }
    var target := u.ctx.projectName + "-" + u.config.name;
    var current := CurrentWindow(w);
    if target == current {
      return Ok([]);
    }
    var existing := ListWindows(w);
    if existing.Err? {
      return Err("could not list current tmux windows with err " + existing.msg);
    }
    var kills := KillExisting(existing.value, target, u.config.disableDestroyExisting);
    if kills.Err? {
      return Err(kills.msg);
    }
    var panes := OpenPanes(u, target);
    r := Ok(kills.value + panes);
  }

  lemma ListedPrefix(windows: seq<Window>, n: nat, target: string)
    requires n <= |windows| && Listed(windows[..n], target)
    ensures Listed(windows, target)
  {
    var j :| 0 <= j < n && windows[..n][j].name == target;
    assert windows[j] == windows[..n][j];
  }

  method ShellDeactivateCommands(u: Unit) returns (r: seq<string>)
    ensures r == []
  {
    r := [];
  }

  // ---------------------------------------------------------------- properties

  /** Every listed window with the target's name gets a kill line. */
  lemma {:induction false} KillsEveryMatch(windows: seq<Window>, target: string, j: nat)
    requires j < |windows| && windows[j].name == target
    ensures KillLine(windows[j]) in Kills(windows, target)
    decreases |windows|
  {
    var n := |windows|;
    if j < n - 1 {
      KillsEveryMatch(windows[..n - 1], target, j);
      assert windows[..n - 1][j] == windows[j];
    }
  }

  /** Only windows with the target's name get a kill line. */
  lemma {:induction false} KillsOnlyMatches(windows: seq<Window>, target: string, line: string)
    requires line in Kills(windows, target)
    ensures exists j :: 0 <= j < |windows| && windows[j].name == target && line == KillLine(windows[j])
    decreases |windows|
  {
    var n := |windows|;
    var init := windows[..n - 1];
    if line in Kills(init, target) {
      KillsOnlyMatches(init, target, line);
      var j :| 0 <= j < |init| && init[j].name == target && line == KillLine(init[j]);
      assert windows[j] == init[j];
    }
  }

  /** Two lines per pane, plus one for each pane that has commands; the window is opened once. */
  lemma {:induction false} PanesLinesCount(u: Unit, target: string, n: nat)
    requires 1 <= n <= |u.config.panes|
    ensures |PanesLines(u, target, n)| >= 2 * n
    ensures PanesLines(u, target, n)[0]
            == "lastWindow=$(tmux new-window -P -c " + ProjectPaths.RootPath(u.ctx, [u.config.panes[0].root]) + " -n " + target + ")"
    decreases n
  {
    if n > 1 {
      PanesLinesCount(u, target, n - 1);
    }
  }

  /**
   * Activating again while a window made by this unit still exists kills that window,
   * as long as the window's name holds no '|' (the program reads a name only up to it).
   */
  lemma ReactivationKillsOldWindow(u: Unit, w: World.World, output: string, j: nat, id: string)
    requires World.Output(w.tmux.windows) == Ok(output)
    requires j < |Strs.Split(output, '\n')| && Strs.Split(output, '\n')[j] == FormatWindow(Window(id, Target(u)))
    requires '|' !in id && '|' !in Target(u)
    requires Activation(u, w).Ok? && Target(u) != CurrentWindow(w)
    ensures KillLine(Window(id, Target(u))) in Activation(u, w).value
  {
    AsWrittenParsesPlainNames(Window(id, Target(u)));
    var windows := ListedWindows(w).value;
    assert windows[j] == Window(id, Target(u));
    KillsEveryMatch(windows, Target(u), j);
  }

  /** No listed window carries a name holding '|', so such a unit never kills nor refuses anything. */
  lemma PipedTargetIsNeverKilled(u: Unit, w: World.World)
    requires '|' in Target(u)
    requires World.Output(w.tmux.session).Ok? && World.Output(w.tmux.session).value != ""
    requires ListedWindows(w).Ok? && Target(u) != CurrentWindow(w)
    ensures Activation(u, w) == Ok(PanesLines(u, Target(u), |u.config.panes|))
  {
    var windows := ListedWindows(w).value;
    var lines := Strs.Split(World.Output(w.tmux.windows).value, '\n');
    assert ParseWindows(lines) == Ok(windows);
    ParsedNamesOmitSeparator(lines, windows);
    KillsNone(windows, Target(u));
    assert ListedWindows(w) == Ok(windows);
    assert [] + PanesLines(u, Target(u), |u.config.panes|) == PanesLines(u, Target(u), |u.config.panes|);
  }

  lemma ParsedNamesOmitSeparator(lines: seq<string>, windows: seq<Window>)
    requires ParseWindows(lines) == Ok(windows)
    ensures forall i :: 0 <= i < |windows| ==> '|' !in windows[i].name
  {
    forall i | 0 <= i < |windows|
      ensures '|' !in windows[i].name
    {
      assert ParseWindowAsWritten(lines[i]) == Ok(windows[i]);
    }
  }

  lemma {:induction false} KillsNone(windows: seq<Window>, target: string)
    requires '|' in target && forall i :: 0 <= i < |windows| ==> '|' !in windows[i].name
    ensures Kills(windows, target) == [] && !Listed(windows, target)
    decreases |windows|
  {
    if |windows| > 0 {
      KillsNone(windows[..|windows| - 1], target);
    }
  }

  /** Activating while the target window is the current one emits nothing. */
  lemma CurrentWindowIsLeftAlone(u: Unit, w: World.World)
    requires World.Output(w.tmux.session).Ok? && World.Output(w.tmux.session).value != ""
    requires CurrentWindow(w) == Target(u)
    ensures Activation(u, w) == Ok([])
  {
  }
}
