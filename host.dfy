/** The VoiceAttack side of the plugin: the proxy object handed to VA_Invoke1,
    with the command context, the profile's commands, the typed variable
    store and the event log. */
module Host {
  import opened Wrappers
  import opened Schema

  /** The largest magnitude a System.Decimal can hold (2^96 - 1). */
  const DecimalMax: int := 79228162514264337593543950335

  /** A variable of the host store.  VoiceAttack keeps one store per type;
      here one map holds every variable together with its type, and each
      value is nullable as in the source's `bool?`, `int?` and `decimal?`. */
  datatype HostValue =
    | BoolVar(b: Option<bool>)
    | TextVar(t: Option<string>)
    | IntVar(i: Option<int32>)
    | DecimalVar(d: Option<real>)

  /** The casts `(decimal?)(double?)x` of the source: a finite double within
      the decimal range converts, NaN, the infinities and anything larger in
      magnitude than DecimalMax throw an OverflowException (None). */
  function ToDecimal(x: Double): (r: Option<real>)
    ensures r.Some? <==> x.Finite? && -(DecimalMax as real) <= x.value <= DecimalMax as real
    ensures r.Some? ==> r.value == x.value
  {
    match x
    case Finite(v) => if -(DecimalMax as real) <= v <= DecimalMax as real then Some(v) else None
    case _ => None
  }

  /** The three colours the plugin writes with: LOG_NORMAL (purple),
      LOG_ERROR (red) and LOG_INFO (grey). */
  datatype Severity = Normal | Error | Info

  /** Which log line was written, with the values each line interpolates. */
  datatype Message =
    | StandingDown
    | ProfileMatch
    | ProcessingLVariable(name: string)
    | ProcessingLVariableRequest(name: string)
    | CalculatorCode(name: string, reading: Double)
    | VariableStatus(reading: Double)
    | ReadNotStored(name: string)
    | ProcessingPmdg(name: string)
    | ProcessingContext(name: string)
    | ContextProcessed(name: string)
    | UnknownContext(name: string)
    | SimConnected
    | WasmConnected
    | CouldNotConnect
    | PlaneDataCalled
    | NoConnection
    | WaitFailed
    | PublishFailed
    | DataUpdated

  datatype Entry = Entry(message: Message, severity: Severity)

  /** GetText: the text stored under key, null when there is none. */
  function TextOf(vars: map<string, HostValue>, key: string): (r: Option<string>)
    ensures r.Some? ==> key in vars && vars[key] == TextVar(r)
    ensures key in vars && vars[key].TextVar? ==> r == vars[key].t
  {
    if key in vars && vars[key].TextVar? then vars[key].t else None
  }

  /** GetBoolean: the flag stored under key, null when there is none. */
  function BooleanOf(vars: map<string, HostValue>, key: string): (r: Option<bool>)
    ensures r.Some? ==> key in vars && vars[key] == BoolVar(r)
    ensures key in vars && vars[key].BoolVar? ==> r == vars[key].b
  {
    if key in vars && vars[key].BoolVar? then vars[key].b else None
  }

  /** The `vaProxy` object: the context and the profile's commands are fixed
      for one invocation, the variable store and the log change. */
  class Proxy {
    const context: Option<string>
    const commands: set<string>
    var vars: map<string, HostValue>
    var log: seq<Entry>

    constructor(context: Option<string>, commands: set<string>, vars: map<string, HostValue>)
      ensures this.context == context && this.commands == commands
      ensures this.vars == vars && log == []
    {
      this.context := context;
      this.commands := commands;
      this.vars := vars;
      log := [];
    }

    /** Command.Exists */
    predicate CommandExists(name: string)
    {
      name in commands
    }

    function GetText(key: string): Option<string>
      reads this
    {
      TextOf(vars, key)
    }

    function GetBoolean(key: string): Option<bool>
      reads this
    {
      BooleanOf(vars, key)
    }

    method SetText(key: string, value: Option<string>)
      modifies this
      ensures vars == old(vars)[key := TextVar(value)] && log == old(log)
    {
      vars := vars[key := TextVar(value)];
    }

    method SetBoolean(key: string, value: Option<bool>)
      modifies this
      ensures vars == old(vars)[key := BoolVar(value)] && log == old(log)
    {
      vars := vars[key := BoolVar(value)];
    }

    method SetInt(key: string, value: Option<int32>)
      modifies this
      ensures vars == old(vars)[key := IntVar(value)] && log == old(log)
    {
      vars := vars[key := IntVar(value)];
    }

    method SetDecimal(key: string, value: Option<real>)
      modifies this
      ensures vars == old(vars)[key := DecimalVar(value)] && log == old(log)
    {
      vars := vars[key := DecimalVar(value)];
    }

    method WriteToLog(message: Message, severity: Severity)
      modifies this
      ensures log == old(log) + [Entry(message, severity)] && vars == old(vars)
    {
      log := log + [Entry(message, severity)];
    }
  }
}
