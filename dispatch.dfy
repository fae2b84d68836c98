/** What one VA_Invoke1 call does, as a function of what it starts from: the
    calls it makes on the Agent, the log lines it writes, the variables it
    leaves and how it ends.  The methods of module Plugin are proved to have
    exactly these effects. */
module Dispatch {
  import opened Wrappers
  import opened Schema
  import opened Host
  import opened SimAgent
  import opened Router
  import opened Publish

  /** The command whose presence marks a profile the agent serves. */
  const AgentCommand: string := "MSFS Agent"

  /** DebugMode: the debug flag, false when it is not set. */
  function DebugMode(vars: map<string, HostValue>): (r: bool)
    ensures r <==> BooleanOf(vars, DebugKey) == Some(true)
  {
    match BooleanOf(vars, DebugKey)
    case Some(b) => b
    case None => false
  }

  /** Log lines are appended in the order they are written. */
  lemma AppendIsAssociative<T>(a: seq<T>, b: seq<T>, c: seq<T>)
    ensures (a + b) + c == a + (b + c)
  {
  }

  /** A line written only in debug mode. */
  function Debug(debug: bool, m: Message): seq<Entry>
  {
    if debug then [Entry(m, Info)] else []
  }

  /** The line SupportedProfile writes. */
  function ProfileLog(debug: bool, supported: bool): seq<Entry>
  {
    Debug(debug, if supported then ProfileMatch else StandingDown)
  }

  /** ConnectToSim's calls: Connect, then AddDataDefinitions when the
      connection comes up or Disconnect when it does not. */
  function SimConnectCalls(up: bool): seq<AgentCall>
  {
    if up then [Connect, AddDataDefinitions] else [Connect, Disconnect]
  }

  function SimConnectLog(debug: bool, up: bool): seq<Entry>
  {
    if up then Debug(debug, SimConnected) else [Entry(CouldNotConnect, Error)]
  }

  /** ConnectToWASM's calls. */
  function WasmConnectCalls(up: bool): seq<AgentCall>
  {
    if up then [WasmConnect] else [WasmConnect, WasmDisconnect]
  }

  /** ConnectToWASM reports its failure with the SimConnect message. */
  function WasmConnectLog(debug: bool, up: bool): seq<Entry>
  {
    if up then Debug(debug, WasmConnected) else [Entry(CouldNotConnect, Error)]
  }

  /** n calls of CheckForMessage. */
  function Polls(n: nat): (r: seq<AgentCall>)
    ensures |r| == n && forall i :: 0 <= i < n ==> r[i] == CheckForMessage
  {
    if n == 0 then [] else Polls(n - 1) + [CheckForMessage]
  }

  /** The effect of GetPlaneData; `diverged` means the wait loop was still
      polling when the fuel ran out. */
  datatype Snap = Snap(calls: seq<AgentCall>, log: seq<Entry>, vars: map<string, HostValue>, diverged: bool)

  const PlaneStateRequestCall: AgentCall := RequestData(PlaneStateRequest, PlaneStateDefinition)

  /** Whether the simulator has answered (delivered or thrown) within fuel
      polls. */
  predicate Answered(reply: Reply, fuel: nat)
  {
    !reply.Silent? && fuel > reply.delay
  }

  /** The number of polls the wait loop makes: up to and including the
      answering one, or all of fuel. */
  function WaitPolls(reply: Reply, fuel: nat): (n: nat)
    ensures n <= fuel
    ensures Answered(reply, fuel) ==> n == reply.delay + 1
    ensures !Answered(reply, fuel) ==> n == fuel
  {
    if Answered(reply, fuel) then reply.delay + 1 else fuel
  }

  /** GetPlaneData on an agent that is connected (live) or not, a simulator
      answering with reply, at most fuel polls, starting from vars. */
  function PlaneData(debug: bool, live: bool, reply: Reply, fuel: nat, vars: map<string, HostValue>): Snap
    requires reply.Delivered? ==> IsPlaneState(reply.state)
  {
    var log0 := Debug(debug, PlaneDataCalled);
    if !live then Snap([], log0 + [Entry(NoConnection, Error)], vars, false)
    else
      var f := Fetch(debug, reply, fuel, vars);
      Snap(f.calls, log0 + f.log, f.vars, f.diverged)
  }

  /** The request for a record and the wait for it on a live connection,
      then the record's publication. */
  function Fetch(debug: bool, reply: Reply, fuel: nat, vars: map<string, HostValue>): Snap
    requires reply.Delivered? ==> IsPlaneState(reply.state)
  {
    var calls := [PlaneStateRequestCall] + Polls(WaitPolls(reply, fuel));
    if !Answered(reply, fuel) then Snap(calls, [], vars, true)
    else if reply.Broken? then Snap(calls, [Entry(WaitFailed, Error)], vars, false)
    else
      var s := Store(PlaneStateFields(), debug, reply.state, vars);
      Snap(calls, s.log, s.vars, false)
  }

  /** The publication of a received record with the given fields: they are
      written in order up to the first that cannot be, and either that
      failure or, in debug mode, the update is logged. */
  function Store(fields: seq<Field>, debug: bool, state: seq<FieldValue>, vars: map<string, HostValue>): Snap
    requires IsRecord(fields, state)
  {
    var j := FirstFailure(fields, state, 0);
    Snap([], if j < |fields| then [Entry(PublishFailed, Error)] else Debug(debug, DataUpdated),
         Published(vars, fields, state, j), false)
  }

  /** How an invocation ends: it returns early (NotRun), its connection
      fails, it reaches the end of its path (Processed), the context names
      no event, an exception escapes (Threw), or GetPlaneData is still
      waiting when the fuel runs out (Diverged).  ReadFailed is the outcome
      of the corrected scripting-variable read only, where a reading the
      decimal cast rejects is caught and reported. */
  datatype Outcome = NotRun | ConnectionFailed | Processed | UnknownEvent | Threw | Diverged | ReadFailed

  datatype Effect = Effect(outcome: Outcome, calls: seq<AgentCall>, log: seq<Entry>, vars: map<string, HostValue>)

  /** VA_Invoke1 for a context, the profile's commands, the variable store,
      the simulator, the names EventTypes declares and a bound on polls. */
  function Run(context: Option<string>, commands: set<string>, vars: map<string, HostValue>,
               sim: Sim, eventTypes: set<string>, fuel: nat): Effect
    requires ValidSim(sim)
  {
    var debug := DebugMode(vars);
    var supported := AgentCommand in commands;
    var log0 := ProfileLog(debug, supported);
    if !supported then Effect(NotRun, [], log0, vars)
    else
      var e := RunAction(Classify(context, eventTypes), debug, vars, sim, fuel);
      Effect(e.outcome, e.calls, log0 + e.log, e.vars)
  }

  /** The path VA_Invoke1 takes for an action once the profile check has
      passed; the log holds the lines written after that check. */
  function RunAction(a: Action, debug: bool, vars: map<string, HostValue>, sim: Sim, fuel: nat): Effect
    requires ValidSim(sim)
  {
    match a
    case NoContext => Effect(NotRun, [], [], vars)
    case TooShort => Effect(Threw, [], [], vars)
    case ScriptSet(n) => ScriptSetRun(n, debug, vars, sim)
    case ScriptGet(n) => ScriptGetRun(n, debug, vars, sim)
    case VendorEvent(n) => VendorRun(n, debug, vars, sim)
    case _ => RegularRun(a, debug, vars, sim, fuel)
  }

  /** "L:" + n: the scripting variable n is set to the event data. */
  function ScriptSetRun(n: string, debug: bool, vars: map<string, HostValue>, sim: Sim): Effect
  {
    var log1 := WasmConnectLog(debug, sim.wasmUp);
    if !sim.wasmUp then Effect(ConnectionFailed, WasmConnectCalls(false), log1, vars)
    else
      Effect(Processed, [WasmConnect, SetLVar(n, TextOf(vars, EventDataKey)), WasmDisconnect],
             log1 + Debug(debug, ProcessingLVariable(n)) + [Entry(ContextProcessed(n), Normal)], vars)
  }

  /** "L:" + n + "-G": the scripting variable n is read and its reading
      stored as a decimal; a reading the cast rejects throws before the WASM
      connection is closed. */
  function ScriptGetRun(n: string, debug: bool, vars: map<string, HostValue>, sim: Sim): Effect
  {
    var log1 := WasmConnectLog(debug, sim.wasmUp);
    if !sim.wasmUp then Effect(ConnectionFailed, WasmConnectCalls(false), log1, vars)
    else
      var reading := sim.readings(n);
      var log2 := log1 + Debug(debug, ProcessingLVariableRequest(n));
      match ToDecimal(reading)
      case None => Effect(Threw, [WasmConnect, GetLVar(n)], log2, vars)
      case Some(x) =>
        Effect(Processed, [WasmConnect, GetLVar(n), WasmDisconnect],
               log2 + Debug(debug, CalculatorCode(n, reading)) + [Entry(VariableStatus(reading), Normal)],
               vars[AltVariableKey := DecimalVar(Some(x))])
  }

  /** "P:" + n: the PMDG event n is sent with the event data. */
  function VendorRun(n: string, debug: bool, vars: map<string, HostValue>, sim: Sim): Effect
  {
    var log1 := SimConnectLog(debug, sim.simConnectUp);
    if !sim.simConnectUp then Effect(ConnectionFailed, SimConnectCalls(false), log1, vars)
    else
      Effect(Processed, SimConnectCalls(true) + [TriggerPmdg(n, TextOf(vars, EventDataKey)), Disconnect],
             log1 + Debug(debug, ProcessingPmdg(n)) + [Entry(ContextProcessed(n), Normal)], vars)
  }

  /** Any other context, upper-cased: once SimConnect is up the switch on
      it decides what happens. */
  function RegularRun(a: Action, debug: bool, vars: map<string, HostValue>, sim: Sim, fuel: nat): Effect
    requires IsRegular(a) && ValidSim(sim)
  {
    var log1 := SimConnectLog(debug, sim.simConnectUp);
    if !sim.simConnectUp then Effect(ConnectionFailed, SimConnectCalls(false), log1, vars)
    else
      var t := EventRun(a, debug, vars, sim, fuel);
      Effect(t.outcome, SimConnectCalls(true) + t.calls,
             log1 + Debug(debug, ProcessingContext(RegularName(a))) + t.log, t.vars)
  }

  /** The switch on an upper-cased context over a live connection: the
      snapshot, a table event sent with the event data, another event sent
      without it, or an unknown name; every case but a snapshot that is
      still waiting ends by disconnecting. */
  function EventRun(a: Action, debug: bool, vars: map<string, HostValue>, sim: Sim, fuel: nat): Effect
    requires IsRegular(a) && ValidSim(sim)
  {
    var done := [Entry(ContextProcessed(RegularName(a)), Normal)];
    match a
    case Snapshot =>
      var s := PlaneData(debug, true, sim.reply, fuel, vars);
      if s.diverged then Effect(Diverged, s.calls, s.log, s.vars)
      else Effect(Processed, s.calls + [Disconnect], s.log + done, s.vars)
    case TableEvent(e) =>
      Effect(Processed, [TriggerEvent(e, Payload(TextOf(vars, EventDataKey))), Disconnect], done, vars)
    case DirectEvent(e) =>
      Effect(Processed, [TriggerEvent(e, NoPayload), Disconnect], done, vars)
    case Unknown(e) =>
      Effect(UnknownEvent, [Disconnect], [Entry(UnknownContext(e), Error)], vars)
  }
}
