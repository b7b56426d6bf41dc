/** modules/exec.go: the `exec` unit, whose lines are given verbatim in its payload. */
module Exec {
  import opened Wrappers
  import Json
  import Util

  datatype Config = Config(activationCommands: seq<string>, deactivationCommands: seq<string>)

  datatype Unit = Unit(config: Config)

  const ActivationKey: string := "activation_commands"
  const DeactivationKey: string := "deactivation_commands"

  /** `NewExecModule`: decode the two lists; a missing list is empty. */
  function New(raw: Json.Raw): (r: Result<Unit>)
    ensures raw.Absent? ==> r == Ok(Unit(Config([], [])))
    ensures raw.Doc? && !raw.doc.Obj? && !raw.doc.Null? ==> r.Err?
  {
    var ms :- Util.UnmarshalEmpty(raw, "modules.ExecConfig");
    var act :- Json.GetStrings(ms, ActivationKey);
    var deact :- Json.GetStrings(ms, DeactivationKey);
    Ok(Unit(Config(act, deact)))
  }

  /** A document whose two lists decode gives the unit holding them. */
  lemma NewOfMembers(raw: Json.Raw, ms: Json.Members, act: seq<string>, deact: seq<string>)
    requires Util.UnmarshalEmpty(raw, "modules.ExecConfig") == Ok(ms)
    requires Json.GetStrings(ms, ActivationKey) == Ok(act) && Json.GetStrings(ms, DeactivationKey) == Ok(deact)
    ensures New(raw) == Ok(Unit(Config(act, deact)))
  {
  }

  function Activation(u: Unit): seq<string> {
    u.config.activationCommands
  }

  function Deactivation(u: Unit): seq<string> {
    u.config.deactivationCommands
  }

  /** The payload an exec unit with these lines is written as. */
  function Payload(act: seq<string>, deact: seq<string>): Json.Raw {
    Json.Doc(Json.Obj(PayloadMembers(act, deact)))
  }

  /** A list given once, as an array of strings, decodes to that list. */
  lemma GetStringsOnce(ms: Json.Members, field: string, xs: seq<string>)
    requires Json.Values(ms, field) == [Json.StringArray(xs)]
    ensures Json.GetStrings(ms, field) == Ok(xs)
  {
    Json.StringItemsOfArray(xs, field);
    var vals := [Json.StringArray(xs)];
    assert vals[1..] == [];
    assert Json.StringsFrom(vals[1..], field, xs) == Ok(xs);
    assert Json.StringsFrom(vals, field, []) == Json.StringsFrom(vals[1..], field, xs);
  }

  /** Of two members whose keys select different fields, each field sees only its own. */
  lemma ValuesOfPair(k1: string, v1: Json.Json, k2: string, v2: Json.Json)
    requires v1 != Json.Null && v2 != Json.Null
    requires !Json.KeyMatches(k1, k2)
    ensures Json.Values([(k1, v1), (k2, v2)], k1) == [v1]
    ensures Json.Values([(k1, v1), (k2, v2)], k2) == [v2]
  {
    var ms := [(k1, v1), (k2, v2)];
    assert ms[1..] == [(k2, v2)];
    assert Json.Values(ms[1..], k1) == [] by {
      assert !Json.KeyMatches(k2, k1);
      assert ms[1..][1..] == [];
    }
    assert Json.Values(ms[1..], k2) == [v2] by {
      assert ms[1..][1..] == [];
    }
  }

  /** Whatever lines the payload lists come back verbatim, in both directions. */
  lemma LinesVerbatim(act: seq<string>, deact: seq<string>)
    ensures New(Payload(act, deact)).Ok?
    ensures Activation(New(Payload(act, deact)).value) == act
    ensures Deactivation(New(Payload(act, deact)).value) == deact
  {
    var ms := PayloadMembers(act, deact);
    PayloadLists(act, deact);
    assert Util.UnmarshalEmpty(Payload(act, deact), "modules.ExecConfig") == Ok(ms);
    NewOfMembers(Payload(act, deact), ms, act, deact);
  }

  function PayloadMembers(act: seq<string>, deact: seq<string>): Json.Members {
    [(ActivationKey, Json.StringArray(act)), (DeactivationKey, Json.StringArray(deact))]
  }

  /** Each of the payload's two lists decodes to itself. */
  lemma PayloadLists(act: seq<string>, deact: seq<string>)
    ensures Json.GetStrings(PayloadMembers(act, deact), ActivationKey) == Ok(act)
    ensures Json.GetStrings(PayloadMembers(act, deact), DeactivationKey) == Ok(deact)
  {
    var a, d := Json.StringArray(act), Json.StringArray(deact);
    var ms := PayloadMembers(act, deact);
    Json.KeyMismatch(ActivationKey, DeactivationKey);
    ValuesOfPair(ActivationKey, a, DeactivationKey, d);
    GetStringsOnce(ms, ActivationKey, act);
    GetStringsOnce(ms, DeactivationKey, deact);
  }
}
