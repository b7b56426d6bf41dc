/**
 * modules/ps1.go: the `ps1` unit.  Activation saves the prompt in OLD_PS1 and puts a
 * per-shell prefix in front of it; deactivation puts the saved prompt back.  The default
 * prefix reads `[venvy:<project>]` in colours, with the colour escapes wrapped in the
 * markers each shell uses for characters that take no room on screen.
 */
module PS1 {
  import opened Wrappers
  import Json
  import Util
  import Strs
  import Venvy

  const Escape: string := "\U{001B}"
  const NoPrintStart: string := "__noprintstart__"
  const NoPrintEnd: string := "__noprintend__"

  /** The `color.Attribute` values the default prompt uses. */
  const Reset: nat := 0
  const FgHiGreen: nat := 92
  const FgHiBlue: nat := 94
  const FgHiMagenta: nat := 95
  const FgHiCyan: nat := 96

  // ---------------------------------------------------------------- colour sequences

  /** `strconv.Itoa` of every attribute. */
  function Codes(attrs: seq<nat>): (r: seq<string>)
    ensures |r| == |attrs|
    ensures forall i :: 0 <= i < |attrs| ==> r[i] == Strs.NatToString(attrs[i])
  {
    if |attrs| == 0 then [] else Codes(attrs[..|attrs| - 1]) + [Strs.NatToString(attrs[|attrs| - 1])]
  }

  /** The `colorSeq` closure: the attribute codes joined with ';', from which they split back. */
  function ColorSeq(attrs: seq<nat>): (r: string)
    ensures |attrs| >= 1 ==> Strs.Split(r, ';') == Codes(attrs)
  {
    var codes := Codes(attrs);
    if |attrs| >= 1 then
      assert forall i :: 0 <= i < |codes| ==> ';' !in codes[i] by {
        forall i | 0 <= i < |codes| ensures ';' !in codes[i] {
          assert forall j :: 0 <= j < |codes[i]| ==> '0' <= codes[i][j] <= '9';
        }
      }
      Strs.JoinSplit(codes, ';');
      Strs.Join(codes, ";")
    else Strs.Join(codes, ";")
  }

  /** `colorSeq` as the Go code computes it: fill a slice of codes, then join it. */
  method FormatColorSeq(attrs: seq<nat>) returns (r: string)
    ensures r == ColorSeq(attrs)
  {
    var format := new string[|attrs|];
    for i := 0 to |attrs|
      invariant forall j :: 0 <= j < i ==> format[j] == Strs.NatToString(attrs[j])
    {
      format[i] := Strs.NatToString(attrs[i]);
    }
    assert format[..] == Codes(attrs);
    r := Strs.Join(format[..], ";");
  }

  /** The codes can be read back from the sequence: splitting at ';' gives them again. */
  lemma ColorSeqSplits(attrs: seq<nat>)
    requires |attrs| >= 1
    ensures Strs.Split(ColorSeq(attrs), ';') == Codes(attrs)
  {
    var codes := Codes(attrs);
    forall i | 0 <= i < |codes| ensures ';' !in codes[i] {
      assert forall j :: 0 <= j < |codes[i]| ==> '0' <= codes[i][j] <= '9';
    }
    Strs.JoinSplit(codes, ';');
  }

  /** The escape that switches to the attributes: ESC [ codes m. */
  function ColorPrefix(attrs: seq<nat>): string {
    Escape + "[" + ColorSeq(attrs) + "m"
  }

  /** An escape for one attribute holds no '_', so it can never be part of a marker. */
  lemma ColorPrefixPlain(a: nat)
    ensures ColorPrefix([a]) == Escape + "[" + Strs.NatToString(a) + "m"
    ensures '_' !in ColorPrefix([a])
  {
    assert Codes([a]) == [Strs.NatToString(a)];
    var digits := Strs.NatToString(a);
    assert forall j :: 0 <= j < |digits| ==> '0' <= digits[j] <= '9';
  }

  function NoLengthEscape(d: string): string {
    NoPrintStart + d + NoPrintEnd
  }

  /** `colorString`: the data between the attribute escape and the reset escape, both marked as taking no room. */
  function ColorString(data: string, attrs: seq<nat>): string {
    NoLengthEscape(ColorPrefix(attrs)) + data + NoLengthEscape(ColorPrefix([Reset]))
  }

  /**
   * `replaceNoPrint`: every start marker becomes `startSeq`, then every end marker `endSeq`;
   * text without '_' holds no marker and passes unchanged.
   */
  function ReplaceNoPrint(data: string, startSeq: string, endSeq: string): (r: string)
    ensures '_' !in data ==> r == data
  {
    if '_' !in data then
      Strs.ReplaceAllSkips(data, "", NoPrintStart, startSeq);
      Strs.ReplaceAllSkips(data, "", NoPrintEnd, endSeq);
      assert data + "" == data;
      Strs.ReplaceAll(Strs.ReplaceAll(data, NoPrintStart, startSeq), NoPrintEnd, endSeq)
    else Strs.ReplaceAll(Strs.ReplaceAll(data, NoPrintStart, startSeq), NoPrintEnd, endSeq)
  }

  // ---------------------------------------------------------------- the default prompt

  /** One coloured piece of the prompt. */
  datatype Part = Part(data: string, attr: nat)

  /** The pieces of the default prompt, `[venvy:<project>]`. */
  function DefaultParts(projectName: string): seq<Part> {
    [Part("[", FgHiCyan), Part(Venvy.ProjectName, FgHiBlue), Part(":", FgHiGreen),
     Part(projectName, FgHiMagenta), Part("]", FgHiCyan)]
  }

  /** The coloured default prompt as the constructor builds it: five `colorString`s joined. */
  function DefaultColored(projectName: string): string {
    Strs.Join([ColorString("[", [FgHiCyan]), ColorString(Venvy.ProjectName, [FgHiBlue]),
               ColorString(":", [FgHiGreen]), ColorString(projectName, [FgHiMagenta]),
               ColorString("]", [FgHiCyan])], "")
  }

  /**
   * Reference rendering of coloured pieces with `s` before and `e` after every escape:
   * with the two markers it is the coloured text, with a shell's own pair it is what
   * that shell should be given.
   */
  function Wrapped(parts: seq<Part>, s: string, e: string): string {
    if |parts| == 0 then ""
    else s + (ColorPrefix([parts[0].attr]) + (e + (parts[0].data + (s + (ColorPrefix([Reset]) + (e + Wrapped(parts[1..], s, e)))))))
  }

  /** Text that cannot run into a marker: no '_', and not the tail "noprintstart" of a start marker. */
  predicate PlainText(d: string) {
    '_' !in d && d != "noprintstart"
  }

  /** Coloured text is the first piece's `colorString` followed by the rest. */
  lemma WrappedFirst(parts: seq<Part>)
    requires |parts| > 0
    ensures Wrapped(parts, NoPrintStart, NoPrintEnd)
         == ColorString(parts[0].data, [parts[0].attr]) + Wrapped(parts[1..], NoPrintStart, NoPrintEnd)
  {
    var a, b, c, d := NoPrintStart, ColorPrefix([parts[0].attr]), NoPrintEnd, parts[0].data;
    var r, w := ColorPrefix([Reset]), Wrapped(parts[1..], NoPrintStart, NoPrintEnd);
    calc {
      ColorString(d, [parts[0].attr]) + w;
      ((a + b + c) + d + (a + r + c)) + w;
      { Assoc(a + b + c, d, a + r + c); }
      (a + b + c) + (d + (a + r + c)) + w;
      { Assoc(a + b + c, d + (a + r + c), w); }
      (a + b + c) + ((d + (a + r + c)) + w);
      { Assoc(d, a + r + c, w); Assoc(a + r, c, w); Assoc(a, r, c + w); }
      (a + b + c) + (d + (a + (r + (c + w))));
      { Assoc(a + b, c, d + (a + (r + (c + w)))); Assoc(a, b, c + (d + (a + (r + (c + w))))); }
      a + (b + (c + (d + (a + (r + (c + w))))));
    }
  }

  lemma Assoc(x: string, y: string, z: string)
    ensures (x + y) + z == x + (y + z)
  {
  }

  /** The joined `colorString`s are the pieces wrapped in the two markers. */
  lemma DefaultColoredWrapped(projectName: string)
    ensures DefaultColored(projectName) == Wrapped(DefaultParts(projectName), NoPrintStart, NoPrintEnd)
  {
    var ps := DefaultParts(projectName);
    var cs := [ColorString("[", [FgHiCyan]), ColorString(Venvy.ProjectName, [FgHiBlue]),
               ColorString(":", [FgHiGreen]), ColorString(projectName, [FgHiMagenta]),
               ColorString("]", [FgHiCyan])];
    JoinedSuffix(ps, cs, 0);
    assert cs[0..] == cs && ps[0..] == ps;
  }

  lemma {:induction false} JoinedSuffix(ps: seq<Part>, cs: seq<string>, i: nat)
    requires |ps| == |cs| && i <= |ps|
    requires forall j :: 0 <= j < |ps| ==> cs[j] == ColorString(ps[j].data, [ps[j].attr])
    ensures Strs.Join(cs[i..], "") == Wrapped(ps[i..], NoPrintStart, NoPrintEnd)
    decreases |ps| - i
  {
    if i < |ps| {
      JoinedSuffix(ps, cs, i + 1);
      WrappedFirst(ps[i..]);
      assert ps[i..][1..] == ps[i + 1..];
      assert cs[i..][1..] == cs[i + 1..];
      if i + 1 == |ps| {
        assert cs[i..] == [cs[i]];
        assert Wrapped(ps[i + 1..], NoPrintStart, NoPrintEnd) == "";
        assert cs[i] + "" == cs[i];
      } else {
        assert Strs.Join(cs[i..], "") == cs[i] + "" + Strs.Join(cs[i + 1..], "");
        assert cs[i] + "" == cs[i];
      }
    }
  }

  /** After an end marker, text of this shape cannot complete a start marker begun inside it. */
  predicate SafeAfterEnd(y: string) {
    !Strs.HasPrefix(y, "noprintstart__") && !Strs.HasPrefix(y, "_noprintstart__")
  }

  /** An end marker followed by safe text is left alone by the start-marker pass. */
  lemma EndSkipsStartPass(y: string, s: string)
    requires SafeAfterEnd(y)
    ensures Strs.ReplaceAll(NoPrintEnd + y, NoPrintStart, s) == NoPrintEnd + Strs.ReplaceAll(y, NoPrintStart, s)
  {
    forall k | 0 <= k < |NoPrintEnd| ensures !Strs.HasPrefix(NoPrintEnd[k..] + y, NoPrintStart) {
      var z := NoPrintEnd[k..] + y;
      if |z| >= 16 {
        if k == 0 {
          assert z[..16][9] == 'e';
        } else if k == 1 {
          assert z[..16][1] == 'n';
        } else if k < 12 {
          assert '_' !in NoPrintEnd[2..12];
          assert z[..16][0] == NoPrintEnd[2..12][k - 2];
        } else if k == 12 {
          assert z[..16][2..] == y[..14];
          assert NoPrintStart[2..] == "noprintstart__";
        } else {
          assert z[..16][1..] == y[..15];
          assert NoPrintStart[1..] == "_noprintstart__";
        }
      }
    }
    Strs.ReplaceAllNoMatch(NoPrintEnd, y, NoPrintStart, s);
  }

  /** Plain data followed by a start marker is safe after an end marker. */
  lemma PlainThenStartSafe(d: string, rest: string)
    requires PlainText(d)
    ensures SafeAfterEnd(d + NoPrintStart + rest)
  {
    var y := d + NoPrintStart + rest;
    if |d| == 0 {
      assert y[0] == '_' && y[1] == '_';
      assert |y| >= 14 && y[..14][0] == '_';
      assert y[..15][1] == '_';
    } else {
      assert y[0] == d[0] != '_';
      if |y| >= 15 {
        assert y[..15][0] != '_';
      }
      if |d| >= 13 {
        assert y[..14][12] == d[12] != '_';
      } else if |d| == 12 {
        assert y[..14] == d + "__";
        assert (d + "__")[..12] == d;
      } else {
        assert y[..14][|d|] == '_';
      }
    }
  }

  /** Wrapped text is empty or begins with the start marker, so it is safe after an end marker. */
  lemma WrappedSafe(parts: seq<Part>)
    ensures SafeAfterEnd(Wrapped(parts, NoPrintStart, NoPrintEnd))
  {
    var y := Wrapped(parts, NoPrintStart, NoPrintEnd);
    if |parts| > 0 {
      assert y[..|NoPrintStart|] == NoPrintStart;
      assert y[..14][0] == '_';
      assert y[..15][1] == '_';
    }
  }

  /** The start-marker pass over one coloured piece, followed by text safe after an end marker. */
  lemma StartPassHead(pre: string, reset: string, d: string, rest: string, s: string)
    requires '_' !in pre && '_' !in reset && PlainText(d) && SafeAfterEnd(rest)
    ensures Strs.ReplaceAll(NoPrintStart + (pre + (NoPrintEnd + (d + (NoPrintStart + (reset + (NoPrintEnd + rest)))))), NoPrintStart, s)
         == s + (pre + (NoPrintEnd + (d + (s + (reset + (NoPrintEnd + Strs.ReplaceAll(rest, NoPrintStart, s)))))))
  {
    var t1 := reset + (NoPrintEnd + rest);
    var t2 := NoPrintStart + t1;
    var t3 := d + t2;
    var t4 := NoPrintEnd + t3;
    var t5 := pre + t4;
    Strs.ReplaceAllLeading(t5, NoPrintStart, s);
    Strs.ReplaceAllSkips(pre, t4, NoPrintStart, s);
    PlainThenStartSafe(d, t1);
    EndSkipsStartPass(t3, s);
    Strs.ReplaceAllSkips(d, t2, NoPrintStart, s);
    Strs.ReplaceAllLeading(t1, NoPrintStart, s);
    Strs.ReplaceAllSkips(reset, NoPrintEnd + rest, NoPrintStart, s);
    EndSkipsStartPass(rest, s);
  }

  /** The start-marker pass over coloured text replaces exactly the start markers. */
  lemma {:induction false} StartPass(parts: seq<Part>, s: string)
    requires forall i :: 0 <= i < |parts| ==> PlainText(parts[i].data)
    ensures Strs.ReplaceAll(Wrapped(parts, NoPrintStart, NoPrintEnd), NoPrintStart, s) == Wrapped(parts, s, NoPrintEnd)
  {
    if |parts| > 0 {
      var p := parts[0];
      ColorPrefixPlain(p.attr);
      ColorPrefixPlain(Reset);
      WrappedSafe(parts[1..]);
      StartPassHead(ColorPrefix([p.attr]), ColorPrefix([Reset]), p.data, Wrapped(parts[1..], NoPrintStart, NoPrintEnd), s);
      StartPass(parts[1..], s);
    }
  }

  /** The end-marker pass then replaces exactly the end markers. */
  lemma {:induction false} EndPass(parts: seq<Part>, s: string, e: string)
    requires '_' !in s
    requires forall i :: 0 <= i < |parts| ==> '_' !in parts[i].data
    ensures Strs.ReplaceAll(Wrapped(parts, s, NoPrintEnd), NoPrintEnd, e) == Wrapped(parts, s, e)
  {
    if |parts| > 0 {
      var p := parts[0];
      var pre, reset := ColorPrefix([p.attr]), ColorPrefix([Reset]);
      ColorPrefixPlain(p.attr);
      ColorPrefixPlain(Reset);
      var rest := Wrapped(parts[1..], s, NoPrintEnd);
      var t1 := NoPrintEnd + rest;
      var t2 := reset + t1;
      var t3 := s + t2;
      var t4 := p.data + t3;
      var t5 := NoPrintEnd + t4;
      var t6 := pre + t5;
      Strs.ReplaceAllSkips(s, t6, NoPrintEnd, e);
      Strs.ReplaceAllSkips(pre, t5, NoPrintEnd, e);
      Strs.ReplaceAllLeading(t4, NoPrintEnd, e);
      Strs.ReplaceAllSkips(p.data, t3, NoPrintEnd, e);
      Strs.ReplaceAllSkips(s, t2, NoPrintEnd, e);
      Strs.ReplaceAllSkips(reset, t1, NoPrintEnd, e);
      Strs.ReplaceAllLeading(rest, NoPrintEnd, e);
      EndPass(parts[1..], s, e);
    }
  }

  /**
   * `replaceNoPrint` on coloured text puts the shell's pair around every escape and leaves
   * the data as it is, for data that cannot run into a marker.
   */
  lemma ReplaceColored(parts: seq<Part>, s: string, e: string)
    requires '_' !in s
    requires forall i :: 0 <= i < |parts| ==> PlainText(parts[i].data)
    ensures ReplaceNoPrint(Wrapped(parts, NoPrintStart, NoPrintEnd), s, e) == Wrapped(parts, s, e)
  {
    StartPass(parts, s);
    EndPass(parts, s, e);
  }

  // ---------------------------------------------------------------- the unit

  /** `PS1Config` after the constructor: a prompt prefix for any shell, for zsh and for bash. */
  datatype Config = Config(value: string, zshValue: string, bashValue: string)

  datatype Unit = Unit(config: Config)

  function Decode(raw: Json.Raw): (r: Result<Config>)
    ensures raw.Absent? ==> r == Ok(Config("", "", ""))
  {
    var ms :- Util.UnmarshalEmpty(raw, "modules.PS1Config");
    var value :- Json.GetString(ms, "Value");
    var zsh :- Json.GetString(ms, "ZshValue");
    var bash :- Json.GetString(ms, "BashValue");
    Ok(Config(value, zsh, bash))
  }

  /** The three default prefixes: no pair, bash's `\[ \]` and zsh's `%{ %}`. */
  function DefaultConfig(projectName: string): Config {
    var colored := DefaultColored(projectName);
    Config(ReplaceNoPrint(colored, "", ""), ReplaceNoPrint(colored, "%{", "%}"), ReplaceNoPrint(colored, "\\[", "\\]"))
  }

  /**
   * `NewPS1Module`: with no `Value` the three prefixes are the defaults (whatever bash or
   * zsh value was given); then an empty bash or zsh prefix falls back to `Value`.
   */
  function New(projectName: string, raw: Json.Raw): (r: Result<Unit>)
    ensures r.Ok? <==> Decode(raw).Ok?
    ensures r.Ok? && Decode(raw).value.value != "" ==> r.value.config.value == Decode(raw).value.value
    ensures r.Ok? && Decode(raw).value.value != "" ==>
              r.value.config.bashValue == (if Decode(raw).value.bashValue == "" then Decode(raw).value.value
                                           else Decode(raw).value.bashValue)
    ensures r.Ok? && Decode(raw).value.value != "" ==>
              r.value.config.zshValue == (if Decode(raw).value.zshValue == "" then Decode(raw).value.value
                                          else Decode(raw).value.zshValue)
    ensures r.Ok? && Decode(raw).value.value == "" ==> r.value.config == DefaultConfig(projectName)
    ensures r.Ok? ==> r.value.config.value != "" && r.value.config.zshValue != "" && r.value.config.bashValue != ""
  {
    var c :- Decode(raw);
    var d := if c.value == "" then DefaultConfig(projectName) else c;
    DefaultNonEmpty(projectName);
    Ok(Unit(Config(d.value, if d.zshValue == "" then d.value else d.zshValue,
                   if d.bashValue == "" then d.value else d.bashValue)))
  }

  lemma DefaultNonEmpty(projectName: string)
    ensures DefaultConfig(projectName).value != ""
    ensures DefaultConfig(projectName).zshValue != ""
    ensures DefaultConfig(projectName).bashValue != ""
  {
    var colored := DefaultColored(projectName);
    DefaultColoredWrapped(projectName);
    var c := ColorPrefix([FgHiCyan]);
    var rest := colored[|NoPrintStart| + |c|..];
    assert colored == NoPrintStart + (c + rest);
    LeadingEscapeSurvives(rest, "", "");
    LeadingEscapeSurvives(rest, "%{", "%}");
    LeadingEscapeSurvives(rest, "\\[", "\\]");
  }

  /** Text that starts with a marked escape keeps the escape whatever pair replaces the markers. */
  lemma LeadingEscapeSurvives(rest: string, s: string, e: string)
    requires '_' !in s
    ensures ReplaceNoPrint(NoPrintStart + (ColorPrefix([FgHiCyan]) + rest), s, e) != ""
  {
    var c := ColorPrefix([FgHiCyan]);
    ColorPrefixPlain(FgHiCyan);
    Strs.ReplaceAllLeading(c + rest, NoPrintStart, s);
    Strs.ReplaceAllSkips(c, rest, NoPrintStart, s);
    var tail := Strs.ReplaceAll(rest, NoPrintStart, s);
    assert Strs.ReplaceAll(NoPrintStart + (c + rest), NoPrintStart, s) == (s + c) + tail;
    Strs.ReplaceAllSkips(s + c, tail, NoPrintEnd, e);
  }

  /**
   * The default prefixes when the project name cannot run into a marker: each shell gets
   * the coloured `[venvy:<project>]` with its own pair around every escape.
   */
  lemma DefaultPrompt(projectName: string)
    requires PlainText(projectName)
    ensures New(projectName, Json.Absent) == Ok(Unit(Config(
              Wrapped(DefaultParts(projectName), "", ""),
              Wrapped(DefaultParts(projectName), "%{", "%}"),
              Wrapped(DefaultParts(projectName), "\\[", "\\]"))))
  {
    var ps := DefaultParts(projectName);
    DefaultColoredWrapped(projectName);
    assert forall i :: 0 <= i < |ps| ==> PlainText(ps[i].data);
    ReplaceColored(ps, "", "");
    ReplaceColored(ps, "%{", "%}");
    ReplaceColored(ps, "\\[", "\\]");
  }

  const SavePrompt: string := "export OLD_PS1=\"$PS1\""
  const PickPrompt: string :=
    "if [ -n \"$ZSH_VERSION\" ]; then export PS1=\"$ZSH_PS1 $PS1\"; elif [ -n \"$BASH_VERSION\" ]; then export PS1=\"$BASH_PS1 $PS1\"; else export PS1=\"$GENERIC_PS1 $PS1\";  fi"
  const RestorePrompt: string := "if [ ! -z \"$OLD_PS1\" ]; then export PS1=\"$OLD_PS1\"; unset OLD_PS1; fi"

  /** `ShellActivateCommands`: save the prompt, set the three prefixes, pick one by shell. */
  function Activation(u: Unit): (r: seq<string>)
    ensures |r| == 5 && r[0] == SavePrompt && r[4] == PickPrompt
  {
    [SavePrompt,
     "GENERIC_PS1=\"" + u.config.value + "\"",
     "BASH_PS1=\"" + u.config.bashValue + "\"",
     "ZSH_PS1=\"" + u.config.zshValue + "\"",
     PickPrompt]
  }

  /** `ShellDeactivateCommands`: restore the saved prompt when it is not empty. */
  function Deactivation(u: Unit): (r: seq<string>)
    ensures r == [RestorePrompt]
  {
    [RestorePrompt]
  }

  // ---------------------------------------------------------------- what the lines do

  datatype Shell = Zsh | Bash | OtherShell

  /** The shell variables the lines touch: the prompt and the saved prompt (None when unset). */
  datatype PromptVars = PromptVars(ps1: string, oldPs1: Option<string>)

  function Prefix(u: Unit, sh: Shell): string {
    match sh
    case Zsh => u.config.zshValue
    case Bash => u.config.bashValue
    case OtherShell => u.config.value
  }

  /** The effect of the activation lines in the given shell. */
  function Activate(u: Unit, sh: Shell, v: PromptVars): (r: PromptVars)
    ensures r.oldPs1 == Some(v.ps1)
    ensures Strs.HasSuffix(r.ps1, " " + v.ps1)
  {
    var r := PromptVars(Prefix(u, sh) + " " + v.ps1, Some(v.ps1));
    assert r.ps1[|r.ps1| - |" " + v.ps1|..] == " " + v.ps1;
    r
  }

  /** The effect of the deactivation line: `[ ! -z "$OLD_PS1" ]` guards the restore. */
  function Deactivate(v: PromptVars): (r: PromptVars)
    ensures (v.oldPs1.Some? && v.oldPs1.value != "") ==> r == PromptVars(v.oldPs1.value, None)
    ensures !(v.oldPs1.Some? && v.oldPs1.value != "") ==> r == v
  {
    if v.oldPs1.Some? && v.oldPs1.value != "" then PromptVars(v.oldPs1.value, None) else v
  }

  /**
   * Deactivating after activating brings the prompt back exactly when it was not empty:
   * an empty prompt is saved as "" and the guard then keeps the prefixed one.
   */
  lemma RoundTripRestores(u: Unit, sh: Shell, v: PromptVars)
    ensures Deactivate(Activate(u, sh, v)).ps1 == v.ps1 <==> v.ps1 != ""
    ensures v.ps1 != "" ==> Deactivate(Activate(u, sh, v)) == PromptVars(v.ps1, None)
  {
    if v.ps1 == "" {
      var a := Activate(u, sh, v);
      assert |a.ps1| >= 1;
    }
  }
}
