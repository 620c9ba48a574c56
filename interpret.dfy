/** Interpreting the plug's reply (kasa_control.py:227-242): whether the reply
    is echoed and which exit code the process ends with. */
module Interpret {
  import opened Base
  import opened JsonValue
  import opened Commands

  /** Where the sysinfo reply reports the relay. */
  const RelayPath: seq<string> := ["system", "get_sysinfo", "relay_state"]

  /** Python's `v == 1` on a decoded JSON value: true for the number 1 and,
      since `True == 1`, for `true`. */
  predicate EqualsOne(v: Value) {
    v == Num(1) || v == Bool(true)
  }

  /** The exit code, or the exception the relay lookup raises: 0 unless the
      run is a state query; for a state query 1 ("Power ON") when
      `system.get_sysinfo.relay_state == 1` and 2 ("Power OFF") for any other
      value. */
  function ExitCode(state: bool, parsed: Value): (r: Result<nat>)
    ensures r.Ok? ==> r.value <= 2
  {
    if !state then Ok(0)
    else
      match GetPath(parsed, RelayPath)
      case Err(e) => Err(e)
      case Ok(v) => if EqualsOne(v) then Ok(1) else Ok(2)
  }

  /** Whether the parsed reply is printed in full. */
  function Echoes(debug: bool, info: bool): bool {
    debug || info
  }

  /** What the tail of the script does with a reply: it is echoed or not,
      then the process exits with a code or an uncaught exception. */
  datatype Outcome = Outcome(echoed: bool, exit: Result<nat>)

  /** The tail of the script for the parse result of the reply: a reply that
      is not JSON raises before anything is echoed. */
  function Finish(state: bool, info: bool, debug: bool, parsed: Result<Value>): (o: Outcome)
    ensures o.echoed ==> parsed.Ok?
    ensures o.exit.Ok? ==> parsed.Ok? && o.exit.value <= 2
    ensures parsed.Ok? && !state ==> o.exit == Ok(0)
  {
    match parsed
    case Err(e) => Outcome(false, Err(e))
    case Ok(v) => Outcome(Echoes(debug, info), ExitCode(state, v))
  }

  /** The exit-code table, in both directions. */
  lemma ExitCodeTable(state: bool, parsed: Value)
    ensures ExitCode(state, parsed) == Ok(0) <==> !state
    ensures ExitCode(state, parsed) == Ok(1) <==>
      state && GetPath(parsed, RelayPath).Ok? && EqualsOne(GetPath(parsed, RelayPath).value)
    ensures ExitCode(state, parsed) == Ok(2) <==>
      state && GetPath(parsed, RelayPath).Ok? && !EqualsOne(GetPath(parsed, RelayPath).value)
    ensures ExitCode(state, parsed).Err? <==> state && GetPath(parsed, RelayPath).Err?
  {
  }

  /** Against a sysinfo reply that reports relay state `r`, a state query
      exits with 1 exactly when `r` is 1, and with 2 otherwise. */
  lemma StateReply(r: int)
    ensures ExitCode(true, Nest(RelayPath, Num(r))) == Ok(if r == 1 then 1 else 2)
  {
    GetPathNest(RelayPath, Num(r));
  }

  /** A reply without `system.get_sysinfo.relay_state` makes a state query
      raise instead of exiting with a code. */
  lemma StateReplyMissing(fields: map<string, Value>)
    requires "system" !in fields
    ensures ExitCode(true, Obj(fields)) == Err(KeyError("system"))
  {
  }

  /** Whatever the parsed reply, a command other than `state` exits with 0
      and `state` never exits with 0. */
  lemma ExitCodeOfCommand(c: Command, parsed: Value)
    ensures !c.State? ==> ExitCode(IsStateQuery(c), parsed) == Ok(0)
    ensures c.State? ==> ExitCode(IsStateQuery(c), parsed) != Ok(0)
  {
  }

  /** After the handler of `c` has run, a parsed reply is echoed exactly when
      debugging or when the command is `info`. */
  lemma EchoOfCommand(c: Command, debug: bool, parsed: Value)
    ensures Finish(IsStateQuery(c), SetsInfo(c), debug, Ok(parsed)).echoed <==> debug || c.Info?
  {
  }

  /** A reply that does not parse is never echoed, and the run ends in the
      exception the parser raised. */
  lemma FinishUnparsed(state: bool, info: bool, debug: bool, e: Failure)
    ensures Finish(state, info, debug, Err(e)) == Outcome(false, Err(e))
  {
  }

  /** The whole run of command `c` against a reply that parses to `parsed`:
      build the command on a fresh invocation, then interpret the reply. */
  method Run(c: Command, debug: bool, parsed: Result<Value>) returns (o: Outcome)
    ensures o.echoed <==> parsed.Ok? && (debug || c == Info)
    ensures parsed.Ok? && c != State ==> o.exit == Ok(0)
    ensures parsed.Ok? && c == State ==> o.exit == ExitCode(true, parsed.value)
    ensures parsed.Err? ==> o.exit == Err(parsed.error)
  {
    var command, state, info := Prepare(c);
    o := Finish(state, info, debug, parsed);
  }
}
