/** The command handlers (kasa_control.py:92-93, 119-181, 195-211): each
    writes one fixed object under one top-level key of the pending command
    and says whether the run is a state query. */
module Commands {
  import opened Base
  import opened JsonValue

  /** The twelve commands of the command line. */
  datatype Command =
    | On | Off | LedOn | LedOff
    | Alias(name: string)
    | State | Info
    | Bind | Unbind
    | Reset | Reboot
    | Emeter

  /** The alias sent when none is given on the command line. */
  const DefaultAlias: string := "hs110"

  /** The command-line word of each command. */
  function Name(c: Command): string {
    match c
    case On => "on"
    case Off => "off"
    case LedOn => "led_on"
    case LedOff => "led_off"
    case Alias(_) => "alias"
    case State => "state"
    case Info => "info"
    case Bind => "bind"
    case Unbind => "unbind"
    case Reset => "reset"
    case Reboot => "reboot"
    case Emeter => "emeter"
  }

  /** The twelve words the command line accepts. */
  const Choices: seq<string> :=
    ["on", "off", "led_on", "led_off", "alias", "state", "info",
     "bind", "unbind", "reset", "reboot", "emeter"]

  /** The command a command-line word selects (with `alias` the alias text to
      send), or None for a word outside the twelve choices. */
  function FromName(word: string, alias: string): (r: Option<Command>)
    ensures r.Some? <==> word in Choices
    ensures r.Some? ==> Name(r.value) == word
    ensures r.Some? && r.value.Alias? ==> r.value.name == alias
  {
    if word == "on" then Some(On)
    else if word == "off" then Some(Off)
    else if word == "led_on" then Some(LedOn)
    else if word == "led_off" then Some(LedOff)
    else if word == "alias" then Some(Alias(alias))
    else if word == "state" then Some(State)
    else if word == "info" then Some(Info)
    else if word == "bind" then Some(Bind)
    else if word == "unbind" then Some(Unbind)
    else if word == "reset" then Some(Reset)
    else if word == "reboot" then Some(Reboot)
    else if word == "emeter" then Some(Emeter)
    else None
  }

  /** The alias text a command carries ("" for those that carry none). */
  function AliasOf(c: Command): string {
    if c.Alias? then c.name else ""
  }

  /** Every command is selected by its own word, and a word selects only the
      command that has it. */
  lemma NameRoundTrip(c: Command)
    ensures FromName(Name(c), AliasOf(c)) == Some(c)
  {
  }

  /** The top-level key of the pending command a command writes. */
  function Namespace(c: Command): string {
    match c
    case Bind | Unbind => "cnCloud"
    case Emeter => "emeter"
    case _ => "system"
  }

  /** The object stored under the namespace key, in the corrected form for
      `emeter` (`{"get_realtime": null}`). */
  function Payload(c: Command): (v: Value)
    ensures v.Obj? && v.fields.Keys == {Operation(c)}
  {
    match c
    case On => Obj(map["set_relay_state" := Obj(map["state" := Num(1)])])
    case Off => Obj(map["set_relay_state" := Obj(map["state" := Num(0)])])
    case LedOn => Obj(map["set_led_off" := Obj(map["off" := Num(0)])])
    case LedOff => Obj(map["set_led_off" := Obj(map["off" := Num(1)])])
    case Alias(name) => Obj(map["set_dev_alias" := Obj(map["alias" := Str(name)])])
    case State | Info => Obj(map["get_sysinfo" := Null])
    case Bind => Obj(map["bind" := Obj(map["username" := Str("yourUsername"),
                                            "password" := Str("yourPassword")])])
    case Unbind => Obj(map["unbind" := Null])
    case Reset => Obj(map["reset" := Obj(map["delay" := Num(1)])])
    case Reboot => Obj(map["reboot" := Obj(map["delay" := Num(1)])])
    case Emeter => Obj(map["get_realtime" := Null])
  }

  /** The handler's object as the source writes it: `emeter_cmd` mentions the
      undefined name `null` and raises NameError before storing anything. */
  function PayloadAsWritten(c: Command): (r: Result<Value>)
  {
    if c.Emeter? then Err(NameError("null")) else Ok(Payload(c))
  }

  /** As written, the `emeter` command raises NameError instead of getting
      the payload the corrected handler stores. */
  lemma EmeterAsWrittenRaises()
    ensures PayloadAsWritten(Emeter) == Err(NameError("null"))
    ensures PayloadAsWritten(Emeter) != Ok(Payload(Emeter))
  {
  }

  /** The whole pending command after one handler ran on the empty dict. */
  function CommandObject(c: Command): map<string, Value> {
    map[Namespace(c) := Payload(c)]
  }

  /** Whether the handler's return value makes the run a state query. */
  predicate IsStateQuery(c: Command) {
    c.State?
  }

  /** Whether the handler sets the global `info` flag. */
  predicate SetsInfo(c: Command) {
    c.Info?
  }

  /** Each command writes exactly one top-level key, one of the three
      namespaces. */
  lemma SingleNamespace(c: Command)
    ensures CommandObject(c).Keys == {Namespace(c)}
    ensures |CommandObject(c)| == 1
    ensures Namespace(c) in {"system", "cnCloud", "emeter"}
  {
  }

  /** Looking `path` up in the request of `c` as the device would. */
  function Field(c: Command, path: seq<string>): Result<Value> {
    GetPath(Obj(CommandObject(c)), path)
  }

  /** `on` and `off` set `system.set_relay_state.state` to 1 and 0. */
  lemma RelayCommands()
    ensures Field(On, ["system", "set_relay_state", "state"]) == Ok(Num(1))
    ensures Field(Off, ["system", "set_relay_state", "state"]) == Ok(Num(0))
  {
  }

  /** `led_on` and `led_off` set `system.set_led_off.off`, inverted: 0 turns
      the LED on, 1 turns it off. */
  lemma LedCommands()
    ensures Field(LedOn, ["system", "set_led_off", "off"]) == Ok(Num(0))
    ensures Field(LedOff, ["system", "set_led_off", "off"]) == Ok(Num(1))
  {
  }

  /** `reset` and `reboot` ask for a delay of one second. */
  lemma DelayCommands()
    ensures Field(Reset, ["system", "reset", "delay"]) == Ok(Num(1))
    ensures Field(Reboot, ["system", "reboot", "delay"]) == Ok(Num(1))
  {
  }

  /** Without `-a`, the `alias` word sends the alias "hs110". */
  lemma DefaultAliasCommand()
    ensures FromName("alias", DefaultAlias) == Some(Alias("hs110"))
    ensures Field(Alias(DefaultAlias), ["system", "set_dev_alias", "alias"]) == Ok(Str("hs110"))
  {
  }

  /** `alias` sends the alias text unchanged. */
  lemma AliasCommand(name: string)
    ensures Field(Alias(name), ["system", "set_dev_alias", "alias"]) == Ok(Str(name))
  {
  }

  /** `state` and `info` both send `system.get_sysinfo: null`, so the request
      alone does not tell them apart. */
  lemma SysinfoCommands()
    ensures Field(State, ["system", "get_sysinfo"]) == Ok(Null)
    ensures CommandObject(State) == CommandObject(Info)
  {
  }

  /** `bind` sends the fixed placeholder credentials. */
  lemma BindCommand()
    ensures Field(Bind, ["cnCloud", "bind", "username"]) == Ok(Str("yourUsername"))
    ensures Field(Bind, ["cnCloud", "bind", "password"]) == Ok(Str("yourPassword"))
  {
  }

  /** `unbind` sends `cnCloud.unbind: null`. */
  lemma UnbindCommand()
    ensures Field(Unbind, ["cnCloud", "unbind"]) == Ok(Null)
  {
  }

  /** The corrected `emeter` sends `emeter.get_realtime: null`. */
  lemma EmeterCommand()
    ensures Field(Emeter, ["emeter", "get_realtime"]) == Ok(Null)
  {
  }

  /** The one key of a command's payload object: the operation it asks for. */
  function Operation(c: Command): string {
    match c
    case On | Off => "set_relay_state"
    case LedOn | LedOff => "set_led_off"
    case Alias(_) => "set_dev_alias"
    case State | Info => "get_sysinfo"
    case Bind => "bind"
    case Unbind => "unbind"
    case Reset => "reset"
    case Reboot => "reboot"
    case Emeter => "get_realtime"
  }

  /** The value a command's payload holds under its operation key. */
  function Argument(c: Command): Value {
    Payload(c).fields[Operation(c)]
  }

  /** Apart from `state` and `info`, different commands send different
      requests. */
  lemma RequestsDistinct(c1: Command, c2: Command)
    ensures CommandObject(c1) == CommandObject(c2) <==>
      c1 == c2 || (c1 in {State, Info} && c2 in {State, Info})
  {
    if CommandObject(c1) == CommandObject(c2) {
      assert Namespace(c1) == Namespace(c2) by {
        assert Namespace(c1) in CommandObject(c2);
      }
      var p := Payload(c1);
      assert p == Payload(c2);
      assert Operation(c1) == Operation(c2) by {
        assert Operation(c1) in p.fields.Keys;
      }
      assert Argument(c1) == Argument(c2);
      SameOperation(c1, c2);
      if c1 in {On, Off} {
        assert Argument(c1).fields["state"] == Argument(c2).fields["state"];
      } else if c1 in {LedOn, LedOff} {
        assert Argument(c1).fields["off"] == Argument(c2).fields["off"];
      } else if c1.Alias? && c2.Alias? {
        assert Argument(c1).fields["alias"] == Argument(c2).fields["alias"];
      }
    }
  }

  /** Commands that share namespace and operation come in the pairs that
      differ only in their argument. */
  lemma SameOperation(c1: Command, c2: Command)
    requires Namespace(c1) == Namespace(c2) && Operation(c1) == Operation(c2)
    ensures c1 == c2 || (c1 in {On, Off} && c2 in {On, Off})
      || (c1 in {LedOn, LedOff} && c2 in {LedOn, LedOff})
      || (c1.Alias? && c2.Alias?) || (c1 in {State, Info} && c2 in {State, Info})
  {
  }

  /** The script's global state while the command is built: the pending
      command dict and the `info` flag. */
  class Invocation {
    var command: map<string, Value>
    var info: bool

    /** `command = {}` and `info = False`. */
    constructor ()
      ensures command == map[] && !info
    {
      command := map[];
      info := false;
    }

    /** `reset_cmd`: returns nothing (a falsy None). */
    method ResetCmd()
      modifies this`command
      ensures command == old(command)[Namespace(Reset) := Payload(Reset)]
    {
      command := command["system" := Obj(map["reset" := Obj(map["delay" := Num(1)])])];
    }

    /** `reboot_cmd`: returns nothing. */
    method RebootCmd()
      modifies this`command
      ensures command == old(command)[Namespace(Reboot) := Payload(Reboot)]
    {
      command := command["system" := Obj(map["reboot" := Obj(map["delay" := Num(1)])])];
    }

    /** `unbind_cmd`: returns nothing. */
    method UnbindCmd()
      modifies this`command
      ensures command == old(command)[Namespace(Unbind) := Payload(Unbind)]
    {
      command := command["cnCloud" := Obj(map["unbind" := Null])];
    }

    /** `bind_cmd`. */
    method BindCmd() returns (state: bool)
      modifies this`command
      ensures command == old(command)[Namespace(Bind) := Payload(Bind)]
      ensures !state
    {
      var bind := Obj(map["bind" := Obj(map["username" := Str("yourUsername"),
                                            "password" := Str("yourPassword")])]);
      command := command["cnCloud" := bind];
      state := false;
    }

    /** `emeter_cmd`, corrected to store `{"get_realtime": null}`; returns
        nothing. */
    method EmeterCmd()
      modifies this`command
      ensures command == old(command)[Namespace(Emeter) := Payload(Emeter)]
    {
      command := command["emeter" := Obj(map["get_realtime" := Null])];
    }

    /** `on_cmd`. */
    method OnCmd() returns (state: bool)
      modifies this`command
      ensures command == old(command)[Namespace(On) := Payload(On)]
      ensures !state
    {
      var relayState := Obj(map["set_relay_state" := Obj(map["state" := Num(1)])]);
      command := command["system" := relayState];
      state := false;
    }

    /** `off_cmd`. */
    method OffCmd() returns (state: bool)
      modifies this`command
      ensures command == old(command)[Namespace(Off) := Payload(Off)]
      ensures !state
    {
      var relayState := Obj(map["set_relay_state" := Obj(map["state" := Num(0)])]);
      command := command["system" := relayState];
      state := false;
    }

    /** `led_on_cmd`. */
    method LedOnCmd() returns (state: bool)
      modifies this`command
      ensures command == old(command)[Namespace(LedOn) := Payload(LedOn)]
      ensures !state
    {
      var led := Obj(map["set_led_off" := Obj(map["off" := Num(0)])]);
      command := command["system" := led];
      state := false;
    }

    /** `led_off_cmd`. */
    method LedOffCmd() returns (state: bool)
      modifies this`command
      ensures command == old(command)[Namespace(LedOff) := Payload(LedOff)]
      ensures !state
    {
      var led := Obj(map["set_led_off" := Obj(map["off" := Num(1)])]);
      command := command["system" := led];
      state := false;
    }

    /** `alias_cmd`, with the command-line alias as a parameter. */
    method AliasCmd(alias: string) returns (state: bool)
      modifies this`command
      ensures command == old(command)[Namespace(Alias(alias)) := Payload(Alias(alias))]
      ensures !state
    {
      var a := Obj(map["set_dev_alias" := Obj(map["alias" := Str(alias)])]);
      command := command["system" := a];
      state := false;
    }

    /** `info_cmd`: the only handler that sets `info`. */
    method InfoCmd() returns (state: bool)
      modifies this
      ensures command == old(command)[Namespace(Info) := Payload(Info)]
      ensures info && !state
    {
      info := true;
      command := command["system" := Obj(map["get_sysinfo" := Null])];
      state := false;
    }

    /** `state_cmd`: the only handler that returns true. */
    method StateCmd() returns (state: bool)
      modifies this`command
      ensures command == old(command)[Namespace(State) := Payload(State)]
      ensures state
    {
      command := command["system" := Obj(map["get_sysinfo" := Null])];
      state := true;
    }

    /** `state = func()`: runs the handler of `c`. A handler that returns
        nothing leaves `state` false, as Python's None is falsy. */
    method Dispatch(c: Command) returns (state: bool)
      modifies this
      ensures command == old(command)[Namespace(c) := Payload(c)]
      ensures info == (old(info) || SetsInfo(c))
      ensures state == IsStateQuery(c)
    {
      match c
      case On => state := OnCmd();
      case Off => state := OffCmd();
      case LedOn => state := LedOnCmd();
      case LedOff => state := LedOffCmd();
      case Alias(name) => state := AliasCmd(name);
      case State => state := StateCmd();
      case Info => state := InfoCmd();
      case Bind => state := BindCmd();
      case Unbind => UnbindCmd(); state := false;
      case Reset => ResetCmd(); state := false;
      case Reboot => RebootCmd(); state := false;
      case Emeter => EmeterCmd(); state := false;
    }
  }

  /** The global state and the state flag once the handler of `c` has run on
      a fresh invocation. */
  method Prepare(c: Command) returns (command: map<string, Value>, state: bool, info: bool)
    ensures command == CommandObject(c) && command.Keys == {Namespace(c)}
    ensures state <==> c == State
    ensures info <==> c == Info
  {
    var inv := new Invocation();
    state := inv.Dispatch(c);
    command, info := inv.command, inv.info;
    SingleNamespace(c);
  }
}
