/**
 * The Tasmota smart-plug relay driver: a cached relay state committed only
 * after the plug accepted the command, its single-pin surface, and the
 * factory's parameter validation.  The command transport is an oracle
 * `execute` that says, per command, whether the plug accepted it.
 */
module Tasmota {
  import opened Hal

  const AddressParam: string := "Address"

  /** The relay command: state 1 switches the relay on, 0 switches it off. */
  datatype Command = SetRelayState(relay: int)

  /** Why the transport failed to deliver a command; its content is opaque. */
  datatype CommandError = CommandError(description: string)

  datatype Error =
    | CommandFailed(cause: CommandError)
    | InvalidPin(pin: int)
    | UnsupportedCapability(cap: Capability)
    | InvalidParameters(failures: map<string, seq<Failure>>)

  /** A dynamically typed configuration value. */
  datatype Value = Str(text: string) | Int(n: int) | Bool(b: bool) | Nil

  /** One validation failure message, with the value it complains about. */
  datatype Failure = Required | NotAString(received: Value)

  /** The command that drives the relay to `on`. */
  function RelayCommand(on: bool): Command
  {
    SetRelayState(if on then 1 else 0)
  }

  /** The error a command returns when the transport reports `outcome`. */
  function CommandResult(outcome: Option<CommandError>): Option<Error>
  {
    match outcome
    case None => None
    case Some(e) => Some(CommandFailed(e))
  }

  class Tasmota {
    /** The host:port of the plug. */
    const address: string
    /** The relay state of the last accepted command. */
    var state: bool

    /** A new driver has never sent a command: its state is off. */
    constructor (address: string)
      ensures this.address == address
      ensures !LastState()
    {
      this.address := address;
      state := false;
    }

    /** Sends relay state 1; only an accepted command switches the cached state on. */
    method On(execute: Command -> Option<CommandError>) returns (err: Option<Error>)
      modifies this
      ensures err == CommandResult(execute(SetRelayState(1)))
      ensures LastState() == if err.None? then true else old(LastState())
    {
      var outcome := execute(SetRelayState(1));
      if outcome.Some? {
        return Some(CommandFailed(outcome.value));
      }
      state := true;
      return None;
    }

    /** Sends relay state 0; only an accepted command switches the cached state off. */
    method Off(execute: Command -> Option<CommandError>) returns (err: Option<Error>)
      modifies this
      ensures err == CommandResult(execute(SetRelayState(0)))
      ensures LastState() == if err.None? then false else old(LastState())
    {
      var outcome := execute(SetRelayState(0));
      if outcome.Some? {
        return Some(CommandFailed(outcome.value));
      }
      state := false;
      return None;
    }

    /** Write(b) is On when b holds and Off otherwise. */
    method Write(on: bool, execute: Command -> Option<CommandError>) returns (err: Option<Error>)
      modifies this
      ensures err == CommandResult(execute(RelayCommand(on)))
      ensures LastState() == if err.None? then on else old(LastState())
    {
      if on {
        err := On(execute);
      } else {
        err := Off(execute);
      }
    }

    /** The relay state of the last command the plug accepted; off before any. */
    function LastState(): (on: bool)
      reads this
      ensures on == state
    {
      state
    }

    /** The driver's own number is the index of its only pin. */
    function Number(): (n: int)
      ensures DigitalOutputPin(n) == Ok(DigitalOutputPins()[0])
    {
      0
    }

    function DigitalOutputPins(): (pins: seq<Tasmota>)
      ensures |pins| == 1 && pins[0] == this
    {
      [this]
    }

    /** Only index 0 names a pin, and that pin is the driver itself. */
    function DigitalOutputPin(i: int): (r: Result<Tasmota, Error>)
      ensures r.Ok? <==> i == 0
      ensures r.Ok? ==> r.value == this
      ensures r.Err? ==> r.error == InvalidPin(i)
    {
      if i != 0 then Err(InvalidPin(i)) else Ok(this)
    }

    /** Pins exist only for the digital-output capability: exactly one, the driver. */
    function Pins(cap: Capability): (r: Result<seq<Tasmota>, Error>)
      ensures r.Ok? <==> cap == DigitalOutput
      ensures r.Ok? ==> r.value == [this]
      ensures r.Err? ==> r.error == UnsupportedCapability(cap)
    {
      match cap
      case DigitalOutput => Ok([this])
      case _ => Err(UnsupportedCapability(cap))
    }
  }

  /** The parameters name the plug: "Address" is present and holds a string. */
  predicate HasStringAddress(parameters: map<string, Value>)
  {
    AddressParam in parameters && parameters[AddressParam].Str?
  }

  /** The messages already recorded under `key`; none when the key is absent. */
  function Messages(failures: map<string, seq<Failure>>, key: string): seq<Failure>
  {
    if key in failures then failures[key] else []
  }

  /**
   * Checks the parameters, appending one message under "Address" when it is
   * missing or not a string; valid exactly when no message was recorded.
   */
  method ValidateParameters(parameters: map<string, Value>)
    returns (valid: bool, failures: map<string, seq<Failure>>)
    ensures valid <==> HasStringAddress(parameters)
    ensures valid ==> failures == map[]
    ensures !valid ==> failures.Keys == {AddressParam} && |failures[AddressParam]| == 1
    ensures !valid && AddressParam !in parameters ==> failures[AddressParam] == [Required]
    ensures !valid && AddressParam in parameters ==>
      failures[AddressParam] == [NotAString(parameters[AddressParam])]
  {
    failures := map[];
    if AddressParam in parameters {
      var v := parameters[AddressParam];
      if !v.Str? {
        failures := failures[AddressParam := Messages(failures, AddressParam) + [NotAString(v)]];
      }
    } else {
      failures := failures[AddressParam := Messages(failures, AddressParam) + [Required]];
    }
    valid := |failures| == 0;
  }

  /**
   * Builds a driver for the address in the parameters, or reports the
   * validation failures.
   */
  method NewDriver(parameters: map<string, Value>) returns (r: Result<Tasmota, Error>)
    ensures r.Err? <==> !HasStringAddress(parameters)
    ensures r.Err? ==> r.error.InvalidParameters? && r.error.failures.Keys == {AddressParam}
    ensures r.Err? ==> |r.error.failures[AddressParam]| == 1
    ensures r.Ok? ==> fresh(r.value) && !r.value.LastState()
    ensures r.Ok? ==> r.value.address == parameters[AddressParam].text
  {
    var valid, failures := ValidateParameters(parameters);
    if !valid {
      return Err(InvalidParameters(failures));
    }
    var addr := parameters[AddressParam].text;
    var driver := new Tasmota(addr);
    return Ok(driver);
  }
}
