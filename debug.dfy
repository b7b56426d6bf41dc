/** modules/debug.go: the `debug` unit, which turns shell tracing on and off. */
module Debug {
  import opened Wrappers
  import Json

  datatype Unit = Unit

  /** `NewDebugModule`: the payload is not looked at. */
  function New(raw: Json.Raw): (r: Result<Unit>)
    ensures r == Ok(Unit)
  {
    Ok(Unit)
  }

  /** One line that turns tracing on, whatever it was. */
  function Activation(u: Unit): (r: seq<string>)
    ensures Trace(false, r) && Trace(true, r)
  {
    assert ["set -x"][1..] == [];
    ["set -x"]
  }

  /** One line that turns tracing off, whatever it was. */
  function Deactivation(u: Unit): (r: seq<string>)
    ensures !Trace(false, r) && !Trace(true, r)
  {
    assert ["set +x"][1..] == [];
    ["set +x"]
  }

  /** The shell's tracing flag after a line: `set -x` turns it on, `set +x` off, other lines keep it. */
  function Trace(on: bool, lines: seq<string>): (r: bool)
    decreases |lines|
  {
    if |lines| == 0 then on
    else Trace(if lines[0] == "set -x" then true else if lines[0] == "set +x" then false else on, lines[1..])
  }

  /**
   * Tracing is on from activation and off after deactivation, whatever it was before:
   * a shell that traced already stops tracing.
   */
  lemma TraceOnThenOff(u: Unit, on: bool)
    ensures Trace(on, Activation(u))
    ensures !Trace(Trace(on, Activation(u)), Deactivation(u))
  {
    assert Activation(u)[1..] == [];
    assert Deactivation(u)[1..] == [];
  }
}
