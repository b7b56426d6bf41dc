/**
 * module_ps1.go: the older `ps1` unit.  It saves the prompt in OLD_PS1 and puts one
 * prefix in front of it, the same for every shell; deactivation restores OLD_PS1
 * unconditionally.  The default prefix is `[venvy:<project>]`, coloured when standard
 * output is a colour terminal, with no markers around the escapes.
 */
module LegacyPS1 {
  import opened Wrappers
  import Json
  import Util
  import Strs
  import World
  import Venvy
  import PS1

  /** `PS1Config`. */
  datatype Unit = Unit(value: string)

  /** What `color.Hi…String` makes of a piece: wrapped in its escape and the reset escape on a colour terminal, left alone otherwise. */
  function Colored(s: string, attr: nat, color: bool): string {
    if color then PS1.ColorPrefix([attr]) + s + PS1.ColorPrefix([PS1.Reset]) else s
  }

  /** The default prefix: the five pieces of `[venvy:<project>]`, joined. */
  function DefaultValue(projectName: string, color: bool): string {
    Strs.Join([Colored("[", PS1.FgHiCyan, color), Colored(Venvy.ProjectName, PS1.FgHiBlue, color),
               Colored(":", PS1.FgHiGreen, color), Colored(projectName, PS1.FgHiMagenta, color),
               Colored("]", PS1.FgHiCyan, color)], "")
  }

  function Decode(raw: Json.Raw): (r: Result<string>)
    ensures raw.Absent? ==> r == Ok("")
  {
    var ms :- Util.UnmarshalEmpty(raw, "main.PS1Config");
    Json.GetString(ms, "Value")
  }

  /** `NewPS1Module`: an empty `Value` becomes the default prefix. */
  function New(projectName: string, w: World.World, raw: Json.Raw): (r: Result<Unit>)
    ensures r.Ok? <==> Decode(raw).Ok?
    ensures r.Ok? && Decode(raw).value != "" ==> r.value.value == Decode(raw).value
    ensures r.Ok? && Decode(raw).value == "" ==> r.value.value == DefaultValue(projectName, w.colorTerminal)
    ensures r.Ok? ==> r.value.value != ""
    ensures raw.Doc? && !raw.doc.Obj? && !raw.doc.Null? ==> r.Err?
  {
    var value :- Decode(raw);
    DefaultNonEmpty(projectName, w.colorTerminal);
    Ok(Unit(if value == "" then DefaultValue(projectName, w.colorTerminal) else value))
  }

  /** The default prefix always starts with the coloured or plain "[". */
  lemma DefaultNonEmpty(projectName: string, color: bool)
    ensures DefaultValue(projectName, color) != ""
  {
    var cs := [Colored("[", PS1.FgHiCyan, color), Colored(Venvy.ProjectName, PS1.FgHiBlue, color),
               Colored(":", PS1.FgHiGreen, color), Colored(projectName, PS1.FgHiMagenta, color),
               Colored("]", PS1.FgHiCyan, color)];
    assert |cs[0]| > 0;
    assert Strs.Join(cs, "") == cs[0] + "" + Strs.Join(cs[1..], "");
  }

  /** `ShellActivateCommands`: save the prompt, then put the prefix in front of it. */
  function Activation(u: Unit): (r: seq<string>)
    ensures |r| == 2 && r[0] == PS1.SavePrompt
    ensures r[1] == "export PS1=\"" + u.value + " $PS1\""
  {
    [PS1.SavePrompt, "export PS1=\"" + u.value + " $PS1\""]
  }

  /** `ShellDeactivateCommands`: restore the saved prompt and forget it, with no guard. */
  function Deactivation(u: Unit): (r: seq<string>)
    ensures |r| == 2 && r[1] == "unset OLD_PS1"
    ensures r[0] == "export PS1=\"$OLD_PS1\""
  {
    ["export PS1=\"$OLD_PS1\"", "unset OLD_PS1"]
  }

  // ---------------------------------------------------------------- what the lines do

  /** The effect of the activation lines. */
  function Activate(u: Unit, v: PS1.PromptVars): (r: PS1.PromptVars)
    ensures r.oldPs1 == Some(v.ps1)
    ensures Strs.HasSuffix(r.ps1, " " + v.ps1) && Strs.HasPrefix(r.ps1, u.value)
  {
    var r := PS1.PromptVars(u.value + " " + v.ps1, Some(v.ps1));
    assert r.ps1[|r.ps1| - |" " + v.ps1|..] == " " + v.ps1;
    assert r.ps1[..|u.value|] == u.value;
    r
  }

  /** The effect of the deactivation lines: an unset OLD_PS1 expands to "". */
  function Deactivate(v: PS1.PromptVars): (r: PS1.PromptVars)
    ensures r.oldPs1.None?
    ensures v.oldPs1.Some? ==> r.ps1 == v.oldPs1.value
  {
    PS1.PromptVars(if v.oldPs1.Some? then v.oldPs1.value else "", None)
  }

  /** Deactivating after activating gives back every prompt, the empty one included, and forgets the saved one. */
  lemma RoundTrip(u: Unit, v: PS1.PromptVars)
    ensures Deactivate(Activate(u, v)) == PS1.PromptVars(v.ps1, None)
  {
  }

  /**
   * Deactivating when nothing was saved empties the prompt; the newer unit's guard keeps
   * the prompt as it is instead.
   */
  lemma DeactivateUnsaved(v: PS1.PromptVars)
    requires v.oldPs1.None?
    ensures Deactivate(v).ps1 == ""
    ensures PS1.Deactivate(v) == v
  {
  }

  /** Without colours the default prefix is the plain `[venvy:<project>]`. */
  lemma PlainDefault(projectName: string)
    ensures DefaultValue(projectName, false) == "[" + Venvy.ProjectName + ":" + projectName + "]"
  {
    var cs := ["[", Venvy.ProjectName, ":", projectName, "]"];
    assert Strs.Join(cs[4..], "") == "]";
    assert cs[3..][1..] == cs[4..];
    assert Strs.Join(cs[3..], "") == projectName + "]";
    assert cs[2..][1..] == cs[3..];
    assert Strs.Join(cs[2..], "") == ":" + projectName + "]";
    assert cs[1..][1..] == cs[2..];
    assert Strs.Join(cs[1..], "") == Venvy.ProjectName + ":" + projectName + "]";
  }

  /** Coloured pieces joined are the pieces with their escapes and no markers. */
  lemma {:induction false} ColoredJoined(ps: seq<PS1.Part>, cs: seq<string>)
    requires |cs| == |ps|
    requires forall j :: 0 <= j < |ps| ==> cs[j] == Colored(ps[j].data, ps[j].attr, true)
    ensures Strs.Join(cs, "") == PS1.Wrapped(ps, "", "")
  {
    if |ps| > 0 {
      ColoredJoined(ps[1..], cs[1..]);
      var a, d, z := PS1.ColorPrefix([ps[0].attr]), ps[0].data, PS1.ColorPrefix([PS1.Reset]);
      var w := PS1.Wrapped(ps[1..], "", "");
      assert PS1.Wrapped(ps, "", "") == "" + (a + ("" + (d + ("" + (z + ("" + w))))));
      EmptyMarkers(a, d, z, w);
      assert cs[0] == a + d + z;
      JoinFirst(cs);
    }
  }

  /** Joining with no separator is the first string followed by the rest joined. */
  lemma JoinFirst(cs: seq<string>)
    requires |cs| > 0
    ensures Strs.Join(cs, "") == cs[0] + Strs.Join(cs[1..], "")
  {
    if |cs| == 1 {
      assert cs[0] + "" == cs[0];
    } else {
      assert cs[0] + "" + Strs.Join(cs[1..], "") == cs[0] + Strs.Join(cs[1..], "");
    }
  }

  lemma EmptyMarkers(a: string, d: string, z: string, w: string)
    ensures "" + (a + ("" + (d + ("" + (z + ("" + w)))))) == a + d + z + w
  {
  }

  /**
   * On a colour terminal the default prefix is the one the newer unit gives shells other
   * than bash and zsh, when the project name cannot run into a marker.
   */
  lemma ColoredMatchesNewer(projectName: string)
    requires PS1.PlainText(projectName)
    ensures DefaultValue(projectName, true) == PS1.New(projectName, Json.Absent).value.config.value
  {
    var ps := PS1.DefaultParts(projectName);
    ColoredJoined(ps, [Colored("[", PS1.FgHiCyan, true), Colored(Venvy.ProjectName, PS1.FgHiBlue, true),
            Colored(":", PS1.FgHiGreen, true), Colored(projectName, PS1.FgHiMagenta, true),
            Colored("]", PS1.FgHiCyan, true)]);
    PS1.DefaultPrompt(projectName);
  }
}
