/**
 * modules/envvar.go: the `env` unit.  Activation exports the variables of each env file,
 * then the `vars` table, then unsets `unset_vars`; deactivation, computed from the
 * environment as it is before activation, puts every `vars` and `unset_vars` variable
 * back.  Lines are kept as `Line` values and rendered as the shell text the Go code
 * formats; `Run` gives their effect on an environment.
 */
module EnvVar {
  import opened Wrappers
  import Json
  import Util
  import World
  import ProjectPaths

  /** `EnvVarConfig`; `vars` is a Go map, kept as pairs with distinct keys. */
  datatype Config = Config(vars: seq<(string, string)>, files: seq<string>, unsetVars: seq<string>)

  datatype Unit = Unit(config: Config, ctx: ProjectPaths.Ctx)

  datatype Line = Export(name: string, value: string) | Unset(name: string)

  function Decode(raw: Json.Raw): (r: Result<Config>)
    ensures raw.Absent? ==> r == Ok(Config([], [], []))
    ensures r.Ok? ==> Json.DistinctKeys(r.value.vars)
  {
    var ms :- Util.UnmarshalEmpty(raw, "modules.EnvVarConfig");
    var vars :- Json.GetStringMap(ms, "vars");
    var files :- Json.GetStrings(ms, "files");
    var unset :- Json.GetStrings(ms, "unset_vars");
    Ok(Config(vars, files, unset))
  }

  /** `NewEnvVarModule`: decode the payload; a malformed one is the constructor's error. */
  function New(ctx: ProjectPaths.Ctx, raw: Json.Raw): (r: Result<Unit>)
    ensures r.Ok? <==> Decode(raw).Ok?
    ensures r.Ok? ==> r.value == Unit(Decode(raw).value, ctx)
  {
    var config :- Decode(raw);
    Ok(Unit(config, ctx))
  }

  // ---------------------------------------------------------------- lines

  function Text(l: Line): string {
    match l
    case Export(k, v) => "export " + k + "=\"" + v + "\""
    case Unset(k) => "unset " + k
  }

  function Texts(ls: seq<Line>): (r: seq<string>)
    ensures |r| == |ls| && forall i :: 0 <= i < |ls| ==> r[i] == Text(ls[i])
  {
    if |ls| == 0 then [] else [Text(ls[0])] + Texts(ls[1..])
  }

  function Rendered(r: Result<seq<Line>>): Result<seq<string>> {
    match r
    case Ok(ls) => Ok(Texts(ls))
    case Err(e) => Err(e)
  }

  /** One export per pair, in order. */
  function Exports(ps: seq<(string, string)>): (r: seq<Line>)
    ensures |r| == |ps| && forall i :: 0 <= i < |ps| ==> r[i] == Export(ps[i].0, ps[i].1)
  {
    if |ps| == 0 then [] else [Export(ps[0].0, ps[0].1)] + Exports(ps[1..])
  }

  /** One unset per name, in order. */
  function Unsets(ks: seq<string>): (r: seq<Line>)
    ensures |r| == |ks| && forall i :: 0 <= i < |ks| ==> r[i] == Unset(ks[i])
  {
    if |ks| == 0 then [] else [Unset(ks[0])] + Unsets(ks[1..])
  }

  /** The exports of one env file, or the error for a file that cannot be read. */
  function FileLines(ctx: ProjectPaths.Ctx, file: string, w: World.World): Result<seq<Line>> {
    var fullPath := ProjectPaths.ResolveRootPath(ctx, file);
    match World.ReadFile(w, fullPath)
    case Err(_) => Err("unable to find file " + file + " at " + fullPath)
    case Ok(data) => Ok(Exports(w.dotenv(data)))
  }

  function FilesLines(ctx: ProjectPaths.Ctx, files: seq<string>, w: World.World): Result<seq<Line>> {
    if |files| == 0 then Ok([])
    else
      var init :- FilesLines(ctx, files[..|files| - 1], w);
      var last :- FileLines(ctx, files[|files| - 1], w);
      Ok(init + last)
  }

  /**
   * What `ShellActivateCommands` emits: it fails only on an env file, and once its lines
   * have run every `unset_vars` variable is unset, whatever the environment was.
   */
  function Activation(u: Unit, w: World.World): (r: Result<seq<Line>>)
    ensures r.Err? <==> FilesLines(u.ctx, u.config.files, w).Err?
    ensures r.Ok? ==> forall env: map<string, string>, k :: k in u.config.unsetVars ==> Lookup(Run(env, r.value), k) == None
  {
    var fromFiles :- FilesLines(u.ctx, u.config.files, w);
    var pre := fromFiles + Exports(u.config.vars);
    assert forall env: map<string, string>, k | k in u.config.unsetVars ::
             Lookup(Run(env, pre + Unsets(u.config.unsetVars)), k) == None by {
      forall env: map<string, string>, k | k in u.config.unsetVars
        ensures Lookup(Run(env, pre + Unsets(u.config.unsetVars)), k) == None
      {
        UnsetsClear(env, pre, u.config.unsetVars, k);
      }
    }
    Ok(pre + Unsets(u.config.unsetVars))
  }

  /** The line that puts `k` back as `env` has it. */
  function RestoreLine(env: map<string, string>, k: string): Line {
    if k in env then Export(k, env[k]) else Unset(k)
  }

  function Restores(env: map<string, string>, ks: seq<string>): (r: seq<Line>)
    ensures |r| == |ks| && forall i :: 0 <= i < |ks| ==> r[i] == RestoreLine(env, ks[i])
  {
    if |ks| == 0 then [] else [RestoreLine(env, ks[0])] + Restores(env, ks[1..])
  }

  /** Exports of the names that `env` sets; names it does not set give nothing. */
  function Reexports(env: map<string, string>, ks: seq<string>): (r: seq<Line>)
    ensures forall i :: 0 <= i < |r| ==> r[i].Export? && r[i].name in ks && r[i].name in env && r[i].value == env[r[i].name]
    ensures forall i :: 0 <= i < |ks| && ks[i] in env ==> Export(ks[i], env[ks[i]]) in r
  {
    if |ks| == 0 then []
    else
      var rest := Reexports(env, ks[1..]);
      assert forall i :: 1 <= i < |ks| ==> ks[i] == ks[1..][i - 1];
      if ks[0] in env then [Export(ks[0], env[ks[0]])] + rest else rest
  }

  /**
   * What `ShellDeactivateCommands` emits when the environment is `env`: it names only
   * `vars` and `unset_vars` variables, so variables loaded from env files stay as
   * activation left them.
   */
  function Deactivation(u: Unit, env: map<string, string>): (r: seq<Line>)
    ensures forall i :: 0 <= i < |r| ==> r[i].name in Json.Keys(u.config.vars) || r[i].name in u.config.unsetVars
  {
    var keys := Json.Keys(u.config.vars);
    var restores := Restores(env, keys);
    var reexports := Reexports(env, u.config.unsetVars);
    assert forall i :: 0 <= i < |restores + reexports| ==>
             (restores + reexports)[i].name in keys || (restores + reexports)[i].name in u.config.unsetVars by {
      forall i | 0 <= i < |restores + reexports|
        ensures (restores + reexports)[i].name in keys || (restores + reexports)[i].name in u.config.unsetVars
      {
        if i < |restores| {
          assert (restores + reexports)[i] == restores[i];
        } else {
          assert (restores + reexports)[i] == reexports[i - |restores|];
        }
      }
    }
    restores + reexports
  }

  // ---------------------------------------------------------------- the Go methods

  lemma TextsAppend(a: seq<Line>, b: seq<Line>)
    ensures Texts(a + b) == Texts(a) + Texts(b)
  {
    assert Texts(a + b) == Texts(a) + Texts(b) by {
      forall i | 0 <= i < |a + b|
        ensures Texts(a + b)[i] == (Texts(a) + Texts(b))[i]
      {
      }
    }
  }

  method RenderExports(pairs: seq<(string, string)>) returns (r: seq<string>)
    ensures r == Texts(Exports(pairs))
  {
    r := [];
    var j := 0;
    while j < |pairs|
      invariant 0 <= j <= |pairs|
      invariant r == Texts(Exports(pairs[..j]))
    {
      TextsAppend(Exports(pairs[..j]), [Export(pairs[j].0, pairs[j].1)]);
      assert Exports(pairs[..j + 1]) == Exports(pairs[..j]) + [Export(pairs[j].0, pairs[j].1)];
      r := r + ["export " + pairs[j].0 + "=\"" + pairs[j].1 + "\""];
      j := j + 1;
    }
    assert pairs[..j] == pairs;
  }

  method RenderUnsets(ks: seq<string>) returns (r: seq<string>)
    ensures r == Texts(Unsets(ks))
  {
    r := [];
    var j := 0;
    while j < |ks|
      invariant 0 <= j <= |ks|
      invariant r == Texts(Unsets(ks[..j]))
    {
      TextsAppend(Unsets(ks[..j]), [Unset(ks[j])]);
      assert Unsets(ks[..j + 1]) == Unsets(ks[..j]) + [Unset(ks[j])];
      r := r + ["unset " + ks[j]];
      j := j + 1;
    }
    assert ks[..j] == ks;
  }

  method ShellActivateCommands(u: Unit, w: World.World) returns (r: Result<seq<string>>)
    ensures r == Rendered(Activation(u, w))
  {
    var files := u.config.files;
    var commands: seq<string> := [];
    var i := 0;
    while i < |files|
      invariant 0 <= i <= |files|
      invariant FilesLines(u.ctx, files[..i], w).Ok?
      invariant commands == Texts(FilesLines(u.ctx, files[..i], w).value)
    {
      var fullPath := ProjectPaths.ResolveRootPath(u.ctx, files[i]);
      assert files[..i + 1][..i] == files[..i];
      var data := World.ReadFile(w, fullPath);
      if data.Err? {
        FirstFailure(u.ctx, files, i, w);
        return Err("unable to find file " + files[i] + " at " + fullPath);
      }
      var exported := RenderExports(w.dotenv(data.value));
      TextsAppend(FilesLines(u.ctx, files[..i], w).value, Exports(w.dotenv(data.value)));
      commands := commands + exported;
      i := i + 1;
    }
    assert files[..i] == files;
    var fromFiles := FilesLines(u.ctx, files, w).value;
    var exported := RenderExports(u.config.vars);
    var unset := RenderUnsets(u.config.unsetVars);
    TextsAppend(fromFiles, Exports(u.config.vars));
    TextsAppend(fromFiles + Exports(u.config.vars), Unsets(u.config.unsetVars));
    r := Ok(commands + exported + unset);
  }

  /** The loop stops at the first file that cannot be read, with that file's error. */
  lemma {:induction false} FirstFailure(ctx: ProjectPaths.Ctx, files: seq<string>, i: nat, w: World.World)
    requires i < |files|
    requires FilesLines(ctx, files[..i], w).Ok?
    requires World.ReadFile(w, ProjectPaths.ResolveRootPath(ctx, files[i])).Err?
    ensures FilesLines(ctx, files, w)
            == Err("unable to find file " + files[i] + " at " + ProjectPaths.ResolveRootPath(ctx, files[i]))
    decreases |files| - i
  {
    if i + 1 < |files| {
      assert files[..|files| - 1][..i] == files[..i];
      assert files[..|files| - 1][i] == files[i];
      FirstFailure(ctx, files[..|files| - 1], i, w);
    } else {
      assert files[..|files| - 1] == files[..i];
    }
  }

  lemma RestoresStep(env: map<string, string>, ks: seq<string>, i: nat)
    requires i < |ks|
    ensures Texts(Restores(env, ks[..i + 1])) == Texts(Restores(env, ks[..i])) + [Text(RestoreLine(env, ks[i]))]
  {
    var longer, shorter := Texts(Restores(env, ks[..i + 1])), Texts(Restores(env, ks[..i]));
    forall j | 0 <= j < i + 1
      ensures longer[j] == (shorter + [Text(RestoreLine(env, ks[i]))])[j]
    {
      if j < i {
        assert ks[..i + 1][j] == ks[..i][j];
      }
    }
    assert longer == shorter + [Text(RestoreLine(env, ks[i]))];
  }

  method RenderRestores(env: map<string, string>, ks: seq<string>) returns (r: seq<string>)
    ensures r == Texts(Restores(env, ks))
  {
    r := [];
    var i := 0;
    while i < |ks|
      invariant 0 <= i <= |ks|
      invariant r == Texts(Restores(env, ks[..i]))
    {
      RestoresStep(env, ks, i);
      if ks[i] in env {
        r := r + ["export " + ks[i] + "=\"" + env[ks[i]] + "\""];
      } else {
        r := r + ["unset " + ks[i]];
      }
      i := i + 1;
    }
    assert ks[..i] == ks;
  }

  method RenderReexports(env: map<string, string>, ks: seq<string>) returns (r: seq<string>)
    ensures r == Texts(Reexports(env, ks))
  {
    r := [];
    var j := 0;
    while j < |ks|
      invariant 0 <= j <= |ks|
      invariant r == Texts(Reexports(env, ks[..j]))
    {
      ReexportsAppend(env, ks[..j], ks[j]);
      assert ks[..j + 1] == ks[..j] + [ks[j]];
      if ks[j] in env {
        TextsAppend(Reexports(env, ks[..j]), [Export(ks[j], env[ks[j]])]);
        r := r + ["export " + ks[j] + "=\"" + env[ks[j]] + "\""];
      } else {
        assert Reexports(env, ks[..j + 1]) == Reexports(env, ks[..j]);
      }
      j := j + 1;
    }
    assert ks[..j] == ks;
  }

  method ShellDeactivateCommands(u: Unit, w: World.World) returns (r: seq<string>)
    ensures r == Texts(Deactivation(u, w.env))
  {
    var restored := RenderRestores(w.env, Json.Keys(u.config.vars));
    var reexported := RenderReexports(w.env, u.config.unsetVars);
    TextsAppend(Restores(w.env, Json.Keys(u.config.vars)), Reexports(w.env, u.config.unsetVars));
    r := restored + reexported;
  }

  lemma {:induction false} ReexportsAppend(env: map<string, string>, ks: seq<string>, k: string)
    ensures Reexports(env, ks + [k]) == Reexports(env, ks) + (if k in env then [Export(k, env[k])] else [])
    decreases |ks|
  {
    if |ks| == 0 {
      assert ks + [k] == [k];
      assert [k][1..] == [];
    } else {
      assert (ks + [k])[1..] == ks[1..] + [k];
      ReexportsAppend(env, ks[1..], k);
    }
  }

  // ---------------------------------------------------------------- effect on the environment

  function Lookup(env: map<string, string>, k: string): Option<string> {
    if k in env then Some(env[k]) else None
  }

  /** What a line leaves its variable as. */
  function Effect(l: Line): Option<string> {
    if l.Export? then Some(l.value) else None
  }

  function Apply(env: map<string, string>, l: Line): map<string, string> {
    match l
    case Export(k, v) => env[k := v]
    case Unset(k) => env - {k}
  }

  /** The environment after the lines run one after the other. */
  function Run(env: map<string, string>, ls: seq<Line>): map<string, string>
    decreases |ls|
  {
    if |ls| == 0 then env else Run(Apply(env, ls[0]), ls[1..])
  }

  lemma {:induction false} RunAppend(env: map<string, string>, a: seq<Line>, b: seq<Line>)
    ensures Run(env, a + b) == Run(Run(env, a), b)
    decreases |a|
  {
    if |a| == 0 {
      assert a + b == b;
    } else {
      assert (a + b)[1..] == a[1..] + b;
      RunAppend(Apply(env, a[0]), a[1..], b);
    }
  }

  /** Every line of `ls` that names `k` leaves it as `v`. */
  predicate Keeps(ls: seq<Line>, k: string, v: Option<string>) {
    forall i :: 0 <= i < |ls| && ls[i].name == k ==> Effect(ls[i]) == v
  }

  lemma {:induction false} KeepsRun(env: map<string, string>, ls: seq<Line>, k: string, v: Option<string>)
    requires Lookup(env, k) == v && Keeps(ls, k, v)
    ensures Lookup(Run(env, ls), k) == v
    decreases |ls|
  {
    if |ls| > 0 {
      assert Keeps(ls[1..], k, v) by {
        forall i | 0 <= i < |ls[1..]| && ls[1..][i].name == k
          ensures Effect(ls[1..][i]) == v
        {
          assert ls[1..][i] == ls[i + 1];
        }
      }
      KeepsRun(Apply(env, ls[0]), ls[1..], k, v);
    }
  }

  /** A line naming `k` decides its value when nothing after it says otherwise. */
  lemma LastWins(env: map<string, string>, a: seq<Line>, l: Line, b: seq<Line>, k: string)
    requires l.name == k && Keeps(b, k, Effect(l))
    ensures Lookup(Run(env, a + [l] + b), k) == Effect(l)
  {
    RunAppend(env, a + [l], b);
    RunAppend(env, a, [l]);
    var s := Run(Run(env, a), [l]);
    assert s == Apply(Run(env, a), l);
    KeepsRun(s, b, k, Effect(l));
  }

  /** The restore line of a `vars` variable decides it, whatever activation did. */
  lemma RestoredVar(s: map<string, string>, env: map<string, string>, keys: seq<string>, reexports: seq<Line>, k: string)
    requires k in keys && Keeps(reexports, k, Lookup(env, k))
    ensures Lookup(Run(s, Restores(env, keys) + reexports), k) == Lookup(env, k)
  {
    var restores := Restores(env, keys);
    var i :| 0 <= i < |keys| && keys[i] == k;
    var b := restores[i + 1..] + reexports;
    assert Keeps(b, k, Lookup(env, k)) by {
      forall j | 0 <= j < |b| && b[j].name == k
        ensures Effect(b[j]) == Lookup(env, k)
      {
        if j < |restores[i + 1..]| {
          assert b[j] == restores[i + 1 + j];
        } else {
          assert b[j] == reexports[j - |restores[i + 1..]|];
        }
      }
    }
    assert restores + reexports == restores[..i] + [restores[i]] + b;
    LastWins(s, restores[..i], restores[i], b, k);
  }

  /** After the unsets, every variable they name is unset. */
  lemma UnsetsClear(s: map<string, string>, pre: seq<Line>, ks: seq<string>, k: string)
    requires k in ks
    ensures Lookup(Run(s, pre + Unsets(ks)), k) == None
  {
    var unsets := Unsets(ks);
    var j :| 0 <= j < |ks| && ks[j] == k;
    assert Keeps(unsets[j + 1..], k, None);
    assert pre + unsets == (pre + unsets[..j]) + [unsets[j]] + unsets[j + 1..];
    LastWins(s, pre + unsets[..j], unsets[j], unsets[j + 1..], k);
  }

  /** An unset variable that no restore line names comes back from the re-exports. */
  lemma ReexportedUnset(s: map<string, string>, env: map<string, string>, restores: seq<Line>, ks: seq<string>, k: string)
    requires Lookup(s, k) == None && Keeps(restores, k, None) && k in ks
    ensures Lookup(Run(s, restores + Reexports(env, ks)), k) == Lookup(env, k)
  {
    var reexports := Reexports(env, ks);
    RunAppend(s, restores, reexports);
    KeepsRun(s, restores, k, None);
    var t := Run(s, restores);
    if k in env {
      var j :| 0 <= j < |ks| && ks[j] == k;
      var x :| 0 <= x < |reexports| && reexports[x] == Export(k, env[k]);
      assert reexports == reexports[..x] + [reexports[x]] + reexports[x + 1..];
      assert Keeps(reexports[x + 1..], k, Lookup(env, k));
      LastWins(t, reexports[..x], reexports[x], reexports[x + 1..], k);
    } else {
      KeepsRun(t, reexports, k, None);
    }
  }

  /**
   * Read literally, running the activation lines and then the deactivation lines
   * computed from the environment before activation gives every `vars` and `unset_vars`
   * variable back its former value, or leaves it unset if it was unset, however the
   * shell expanded the activation's own values.
   */
  lemma LiteralRestores(u: Unit, w: World.World, env: map<string, string>, mid: map<string, string>, k: string)
    requires Activation(u, w).Ok? && ShellRun(env, Activation(u, w).value) == Some(mid)
    requires k in Json.Keys(u.config.vars) || k in u.config.unsetVars
    ensures Lookup(Run(mid, Deactivation(u, env)), k) == Lookup(env, k)
  {
    var keys := Json.Keys(u.config.vars);
    var reexports := Reexports(env, u.config.unsetVars);
    assert Keeps(reexports, k, Lookup(env, k));
    if k in keys {
      RestoredVar(mid, env, keys, reexports, k);
    } else {
      var pre := FilesLines(u.ctx, u.config.files, w).value + Exports(u.config.vars);
      var unsets := Unsets(u.config.unsetVars);
      assert Activation(u, w).value == pre + unsets;
      ShellRunAppend(env, pre, unsets);
      var m := ShellRun(env, pre).value;
      ShellRunPlain(m, unsets);
      assert [] + unsets == unsets;
      UnsetsClear(m, [], u.config.unsetVars, k);
      ReexportedUnset(mid, env, Restores(env, keys), u.config.unsetVars, k);
    }
  }

  /** Deactivation writes only former values of its own names, so it is plain where they are. */
  lemma DeactivationPlain(u: Unit, env: map<string, string>)
    requires PlainAt(env, Json.Keys(u.config.vars)) && PlainAt(env, u.config.unsetVars)
    ensures PlainLines(Deactivation(u, env))
  {
    var keys := Json.Keys(u.config.vars);
    var restores := Restores(env, keys);
    var reexports := Reexports(env, u.config.unsetVars);
    var d: seq<Line> := restores + reexports;
    forall i | 0 <= i < |d| && d[i].Export?
      ensures Plain(d[i].value)
    {
      if i < |restores| {
        assert d[i] == restores[i] == RestoreLine(env, keys[i]);
      } else {
        assert d[i] == reexports[i - |restores|];
      }
    }
  }

  /**
   * Running the activation lines and then the deactivation lines computed from the
   * environment before activation, both as the shell reads them, gives every `vars` and
   * `unset_vars` variable back its former value, or leaves it unset if it was unset,
   * provided that those former values are plain text.
   */
  lemma DeactivationRestores(u: Unit, w: World.World, env: map<string, string>, k: string)
    requires Activation(u, w).Ok? && ShellRun(env, Activation(u, w).value).Some?
    requires PlainAt(env, Json.Keys(u.config.vars)) && PlainAt(env, u.config.unsetVars)
    requires k in Json.Keys(u.config.vars) || k in u.config.unsetVars
    ensures var mid := ShellRun(env, Activation(u, w).value).value;
            ShellRun(mid, Deactivation(u, env)).Some? && Lookup(ShellRun(mid, Deactivation(u, env)).value, k) == Lookup(env, k)
  {
    var mid := ShellRun(env, Activation(u, w).value).value;
    DeactivationPlain(u, env);
    ShellRunPlain(mid, Deactivation(u, env));
    LiteralRestores(u, w, env, mid, k);
  }

  // ---------------------------------------------------------------- what the shell reads

  /*
   * Every value is printed between double quotes, where the shell expands `$name` and
   * `${name}`, substitutes commands in backquotes, removes the backslash of an escape,
   * and ends the string at the next `"`. `Run` is what the lines mean when the values
   * are plain text; `ShellRun` is what the shell makes of them.
   */

  /** The characters that are not literal between double quotes. */
  predicate Special(c: char) {
    c == '"' || c == '$' || c == '`' || c == '\\'
  }

  /** Text the shell reads back as written between double quotes. */
  predicate Plain(v: string) {
    forall i :: 0 <= i < |v| ==> !Special(v[i])
  }

  /** Every export among the lines carries plain text. */
  predicate PlainLines(ls: seq<Line>) {
    forall i :: 0 <= i < |ls| && ls[i].Export? ==> Plain(ls[i].value)
  }

  /** `env` holds plain text for each name of `ks` it sets. */
  predicate PlainAt(env: map<string, string>, ks: seq<string>) {
    forall k :: k in ks && k in env ==> Plain(env[k])
  }

  predicate NameStart(c: char) {
    'a' <= c <= 'z' || 'A' <= c <= 'Z' || c == '_'
  }

  predicate NameChar(c: char) {
    NameStart(c) || '0' <= c <= '9'
  }

  /** The length of the longest run of name characters at the head of `s`. */
  function NameLength(s: string): (n: nat)
    ensures n <= |s| && (n < |s| ==> !NameChar(s[n]))
    ensures forall i :: 0 <= i < n ==> NameChar(s[i])
  {
    if |s| == 0 || !NameChar(s[0]) then 0 else 1 + NameLength(s[1..])
  }

  /** What `$name` gives: the value, or the empty text for an unset variable. */
  function Param(env: map<string, string>, name: string): string {
    if name in env then env[name] else ""
  }

  function Prefixed(p: string, o: Option<string>): Option<string> {
    if o.Some? then Some(p + o.value) else None
  }

  /**
   * The text the shell makes of `s` printed between double quotes, or None where `s`
   * ends the quoted string early, substitutes a command or uses a parameter form this
   * model does not cover (positional and special parameters, `$(`, `${` with operators).
   */
  function Expand(env: map<string, string>, s: string): Option<string>
    decreases |s|
  {
    if |s| == 0 then Some("")
    else if s[0] == '"' || s[0] == '`' then None
    else if s[0] == '\\' then
      if |s| == 1 then None
      else if Special(s[1]) then Prefixed([s[1]], Expand(env, s[2..]))
      else if s[1] == '\n' then Expand(env, s[2..])
      else Prefixed("\\", Expand(env, s[1..]))
    else if s[0] == '$' then
      if |s| == 1 then Some("$")
      else if NameStart(s[1]) then
        var n := NameLength(s[1..]);
        if s[1..1 + n] == "_" then None
        else Prefixed(Param(env, s[1..1 + n]), Expand(env, s[1 + n..]))
      else if s[1] == '{' then
        var n := NameLength(s[2..]);
        if 0 < n && NameStart(s[2]) && 2 + n < |s| && s[2 + n] == '}' && s[2..2 + n] != "_" then
          Prefixed(Param(env, s[2..2 + n]), Expand(env, s[3 + n..]))
        else None
      else if NameChar(s[1]) || s[1] in "@*#?-$!(" then None
      else Prefixed("$", Expand(env, s[1..]))
    else Prefixed([s[0]], Expand(env, s[1..]))
  }

  /** The shell's reading of one line, or None where `Expand` says nothing. */
  function ShellApply(env: map<string, string>, l: Line): Option<map<string, string>> {
    match l
    case Export(k, v) => if Expand(env, v).Some? then Some(env[k := Expand(env, v).value]) else None
    case Unset(k) => Some(env - {k})
  }

  /** The environment after the shell reads the lines one after the other. */
  function ShellRun(env: map<string, string>, ls: seq<Line>): Option<map<string, string>>
    decreases |ls|
  {
    if |ls| == 0 then Some(env)
    else if ShellApply(env, ls[0]).None? then None
    else ShellRun(ShellApply(env, ls[0]).value, ls[1..])
  }

  /** Plain text in front of `s` is read back as written, whatever the environment. */
  lemma {:induction false} PlainPrefix(env: map<string, string>, p: string, s: string)
    requires Plain(p)
    ensures Expand(env, p + s) == Prefixed(p, Expand(env, s))
    decreases |p|
  {
    if |p| > 0 {
      assert Plain(p[1..]) by {
        forall i | 0 <= i < |p[1..]|
          ensures !Special(p[1..][i])
        {
          assert p[1..][i] == p[i + 1];
        }
      }
      PlainPrefix(env, p[1..], s);
      assert (p + s)[0] == p[0] && (p + s)[1..] == p[1..] + s;
      if Expand(env, s).Some? {
        assert [p[0]] + (p[1..] + Expand(env, s).value) == p + Expand(env, s).value;
      }
    } else {
      assert p + s == s;
      if Expand(env, s).Some? {
        assert p + Expand(env, s).value == Expand(env, s).value;
      }
    }
  }

  predicate IsName(name: string) {
    && |name| > 0 && NameStart(name[0]) && name != "_"
    && forall i :: 0 <= i < |name| ==> NameChar(name[i])
  }

  lemma {:induction false} NameLengthOf(name: string, rest: string)
    requires (forall i :: 0 <= i < |name| ==> NameChar(name[i])) && |rest| > 0 && !NameChar(rest[0])
    ensures NameLength(name + rest) == |name|
    decreases |name|
  {
    if |name| == 0 {
      assert name + rest == rest;
    } else {
      assert (name + rest)[1..] == name[1..] + rest;
      NameLengthOf(name[1..], rest);
    }
  }

  /** Plain text followed by `${name}` reads as that text and the variable's value. */
  lemma PlainThenParam(env: map<string, string>, p: string, name: string)
    requires Plain(p) && IsName(name)
    ensures Expand(env, p + "${" + name + "}") == Some(p + Param(env, name))
  {
    var s := "${" + name + "}";
    assert s[2..] == name + "}";
    NameLengthOf(name, "}");
    var n := |name|;
    assert s[2..2 + n] == name && s[2 + n] == '}' && s[3 + n..] == "";
    assert Expand(env, s) == Some(Param(env, name) + "");
    assert Param(env, name) + "" == Param(env, name);
    assert p + "${" + name + "}" == p + s;
    PlainPrefix(env, p, s);
  }

  lemma PlainAppend(a: string, b: string)
    requires Plain(a) && Plain(b)
    ensures Plain(a + b)
  {
    forall i | 0 <= i < |a + b|
      ensures !Special((a + b)[i])
    {
      if i < |a| {
        assert (a + b)[i] == a[i];
      } else {
        assert (a + b)[i] == b[i - |a|];
      }
    }
  }

  /** Plain text is read back as written. */
  lemma PlainExpands(env: map<string, string>, v: string)
    requires Plain(v)
    ensures Expand(env, v) == Some(v)
  {
    PlainPrefix(env, v, "");
    assert v + "" == v;
  }

  /** Where every export is plain text, the shell's reading is the literal one. */
  lemma {:induction false} ShellRunPlain(env: map<string, string>, ls: seq<Line>)
    requires PlainLines(ls)
    ensures ShellRun(env, ls) == Some(Run(env, ls))
    decreases |ls|
  {
    if |ls| > 0 {
      if ls[0].Export? {
        PlainExpands(env, ls[0].value);
      }
      assert ShellApply(env, ls[0]) == Some(Apply(env, ls[0]));
      assert PlainLines(ls[1..]) by {
        forall i | 0 <= i < |ls[1..]| && ls[1..][i].Export?
          ensures Plain(ls[1..][i].value)
        {
          assert ls[1..][i] == ls[i + 1];
        }
      }
      ShellRunPlain(Apply(env, ls[0]), ls[1..]);
    }
  }

  lemma {:induction false} ShellRunAppend(env: map<string, string>, a: seq<Line>, b: seq<Line>)
    ensures ShellRun(env, a + b) == if ShellRun(env, a).Some? then ShellRun(ShellRun(env, a).value, b) else None
    decreases |a|
  {
    if |a| == 0 {
      assert a + b == b;
    } else {
      assert (a + b)[0] == a[0] && (a + b)[1..] == a[1..] + b;
      if ShellApply(env, a[0]).Some? {
        ShellRunAppend(ShellApply(env, a[0]).value, a[1..], b);
      }
    }
  }

  /** `$b` vanishes from text read while `b` is unset. */
  lemma UnsetParamVanishes(env: map<string, string>)
    requires "b" !in env
    ensures Expand(env, "a$b") == Some("a")
  {
    assert "$b"[1..] == "b" && "b"[1..] == "" && "$b"[2..] == "";
    assert NameLength("b") == 1;
    assert "$b"[1..2] == "b" && Param(env, "b") == "";
    assert Expand(env, "") == Some("");
    assert Expand(env, "$b") == Prefixed("", Some(""));
    assert "" + "" == "";
    assert "a$b"[0] == 'a' && "a$b"[1..] == "$b" && ['a'] + "" == "a";
  }

  /**
   * As printed, a former value holding `$` does not come back: with `X` set to `a$b` and
   * `b` unset before activation, deactivation leaves `X` as `a`.
   */
  lemma DollarValueNotRestored(ctx: ProjectPaths.Ctx, w: World.World)
    ensures var u := Unit(Config([("X", "x")], [], []), ctx);
            var env := map["X" := "a$b"];
            && Activation(u, w) == Ok([Export("X", "x")])
            && ShellRun(env, [Export("X", "x")]) == Some(map["X" := "x"])
            && ShellRun(map["X" := "x"], Deactivation(u, env)) == Some(map["X" := "a"])
            && Lookup(env, "X") != Some("a")
  {
    var u := Unit(Config([("X", "x")], [], []), ctx);
    var env := map["X" := "a$b"];
    SingleVarLines(u, w, env);
    var mid := map["X" := "x"];
    assert Plain("x");
    PlainExpands(env, "x");
    assert env["X" := "x"] == mid;
    assert ShellApply(env, Export("X", "x")) == Some(mid);
    assert ShellRun(env, [Export("X", "x")]) == ShellRun(mid, []);
    UnsetParamVanishes(mid);
    assert mid["X" := "a"] == map["X" := "a"];
    assert ShellRun(mid, [Export("X", "a$b")]) == ShellRun(map["X" := "a"], []);
  }

  /** The lines of a unit whose only setting is the variable `X`. */
  lemma SingleVarLines(u: Unit, w: World.World, env: map<string, string>)
    requires u.config == Config([("X", "x")], [], [])
    ensures Activation(u, w) == Ok([Export("X", "x")])
    ensures Deactivation(u, env) == [RestoreLine(env, "X")]
  {
    assert FilesLines(u.ctx, [], w) == Ok([]);
    assert Exports([("X", "x")]) == [Export("X", "x")];
    var none: seq<Line> := [];
    assert none + [Export("X", "x")] + none == [Export("X", "x")];
    assert Json.Keys(u.config.vars) == ["X"];
    assert Restores(env, ["X"]) == [RestoreLine(env, "X")];
    assert Reexports(env, []) == [];
  }

  /** `v` with a backslash before every character the shell would otherwise read specially. */
  function Quote(v: string): (r: string)
    ensures |v| <= |r| <= 2 * |v|
  {
    if |v| == 0 then "" else (if Special(v[0]) then ['\\', v[0]] else [v[0]]) + Quote(v[1..])
  }

  /** Quoted text is read back as the value it quotes, whatever characters it holds. */
  lemma {:induction false} QuoteExpands(env: map<string, string>, v: string)
    ensures Expand(env, Quote(v)) == Some(v)
    decreases |v|
  {
    if |v| > 0 {
      QuoteExpands(env, v[1..]);
      var q := Quote(v);
      if Special(v[0]) {
        assert q[0] == '\\' && q[1] == v[0] && q[2..] == Quote(v[1..]);
      } else {
        assert q[0] == v[0] && q[1..] == Quote(v[1..]);
      }
      assert [v[0]] + v[1..] == v;
    }
  }

  /** A line whose value is quoted. */
  function Escaped(l: Line): Line {
    if l.Export? then Export(l.name, Quote(l.value)) else l
  }

  function Quoted(ls: seq<Line>): seq<Line> {
    seq(|ls|, i requires 0 <= i < |ls| => Escaped(ls[i]))
  }

  /** With quoted values the shell's reading is the literal one for every value. */
  lemma {:induction false} ShellRunQuoted(env: map<string, string>, ls: seq<Line>)
    ensures ShellRun(env, Quoted(ls)) == Some(Run(env, ls))
    decreases |ls|
  {
    if |ls| > 0 {
      var q := Quoted(ls);
      assert q[0] == Escaped(ls[0]) && q[1..] == Quoted(ls[1..]);
      if ls[0].Export? {
        QuoteExpands(env, ls[0].value);
      }
      assert ShellApply(env, q[0]) == Some(Apply(env, ls[0]));
      ShellRunQuoted(Apply(env, ls[0]), ls[1..]);
    }
  }

  /**
   * With the restored values quoted, deactivation gives every `vars` and `unset_vars`
   * variable back its former value whatever characters the value holds.
   */
  lemma QuotedDeactivationRestores(u: Unit, w: World.World, env: map<string, string>, k: string)
    requires Activation(u, w).Ok? && ShellRun(env, Activation(u, w).value).Some?
    requires k in Json.Keys(u.config.vars) || k in u.config.unsetVars
    ensures var mid := ShellRun(env, Activation(u, w).value).value;
            ShellRun(mid, Quoted(Deactivation(u, env))).Some?
            && Lookup(ShellRun(mid, Quoted(Deactivation(u, env))).value, k) == Lookup(env, k)
  {
    var mid := ShellRun(env, Activation(u, w).value).value;
    ShellRunQuoted(mid, Deactivation(u, env));
    LiteralRestores(u, w, env, mid, k);
  }

  /** Deactivation only names `vars` and `unset_vars` variables, so variables loaded from env files stay as activation left them. */
  lemma DeactivationNames(u: Unit, env: map<string, string>)
    ensures forall i :: 0 <= i < |Deactivation(u, env)| ==>
              Deactivation(u, env)[i].name in Json.Keys(u.config.vars) || Deactivation(u, env)[i].name in u.config.unsetVars
  {
    var keys := Json.Keys(u.config.vars);
    var restores := Restores(env, keys);
    var reexports := Reexports(env, u.config.unsetVars);
    var d: seq<Line> := restores + reexports;
    forall i | 0 <= i < |d|
      ensures d[i].name in keys || d[i].name in u.config.unsetVars
    {
      if i < |restores| {
        assert d[i] == restores[i];
        assert restores[i].name == keys[i];
      } else {
        assert d[i] == reexports[i - |restores|];
      }
    }
  }

  /** An empty payload gives a unit that emits nothing either way. */
  lemma EmptyConfigIsSilent(ctx: ProjectPaths.Ctx, w: World.World)
    ensures New(ctx, Json.Absent).Ok?
    ensures Activation(New(ctx, Json.Absent).value, w) == Ok([])
    ensures Deactivation(New(ctx, Json.Absent).value, w.env) == []
  {
    var u := New(ctx, Json.Absent).value;
    assert u.config == Config([], [], []);
    assert FilesLines(ctx, [], w) == Ok([]);
    assert Exports([]) == [] && Unsets([]) == [];
    var none: seq<Line> := [];
    assert none + none + none == none;
    assert Activation(u, w) == Ok(none);
  }
}
