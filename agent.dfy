/** The Agent the plugin drives.  Its SimConnect and WASimCommander transports
    are not part of this model: an Agent here records every call made on it
    and answers from a fixed description of the simulator. */
module SimAgent {
  import opened Wrappers
  import opened Schema

  /** How the simulator answers a PlaneState request: after `delay` polls
      that bring nothing, the next poll delivers `state` (Delivered) or throws
      (Broken); Silent never answers. */
  datatype Reply =
    | Delivered(delay: nat, state: seq<FieldValue>)
    | Broken(delay: nat)
    | Silent

  /** The simulator as the plugin sees it: whether SimConnect and the WASM
      server accept a connection, what each scripting variable reads and how
      a data request is answered. */
  datatype Sim = Sim(simConnectUp: bool, wasmUp: bool, readings: string -> Double, reply: Reply)

  /** A delivered record is a well-typed PlaneState: the marshaller produces
      one value of the declared type per field. */
  predicate ValidSim(sim: Sim)
  {
    sim.reply.Delivered? ==> IsPlaneState(sim.reply.state)
  }

  /** TriggerEvent is called with or without its data argument. */
  datatype Payload = NoPayload | Payload(data: Option<string>)

  datatype AgentCall =
    | Connect
    | AddDataDefinitions
    | Disconnect
    | WasmConnect
    | WasmDisconnect
    | TriggerEvent(event: string, payload: Payload)
    | TriggerPmdg(name: string, data: Option<string>)
    | SetLVar(name: string, data: Option<string>)
    | GetLVar(name: string)
    | RequestData(request: RequestType, definition: DataDefinition)
    | CheckForMessage

  /** Whether a SimConnect connection is open after the calls: the last
      Connect comes after the last Disconnect. */
  function SimOpen(calls: seq<AgentCall>): (r: bool)
    ensures r ==> Connect in calls
  {
    if calls == [] then false
    else if calls[|calls| - 1] == Connect then true
    else if calls[|calls| - 1] == Disconnect then false
    else SimOpen(calls[..|calls| - 1])
  }

  /** Whether a WASM connection is open after the calls. */
  function WasmOpen(calls: seq<AgentCall>): (r: bool)
    ensures r ==> WasmConnect in calls
  {
    if calls == [] then false
    else if calls[|calls| - 1] == WasmConnect then true
    else if calls[|calls| - 1] == WasmDisconnect then false
    else WasmOpen(calls[..|calls| - 1])
  }

  /** RequestTypes has the single member PlaneState, so no more than one kind
      of request can be outstanding at a time. */
  lemma AtMostOnePending(pending: set<RequestType>)
    ensures |pending| <= 1
  {
    if pending != {} {
      var r :| r in pending;
      assert pending == {r} by {
        forall q | q in pending ensures q == r {
        }
      }
    }
  }

  class Agent {
    const sim: Sim
    var connected: bool
    var wasmConnected: bool
    var pending: set<RequestType>
    /** Polls made since the last request. */
    var polls: nat
    var planeState: seq<FieldValue>
    var calls: seq<AgentCall>

    /** The connection flags agree with the calls made: a flag is up only
        while its transport has been opened and not closed since. */
    predicate Valid()
      reads this
    {
      (connected ==> SimOpen(calls)) && (wasmConnected ==> WasmOpen(calls))
    }

    constructor(sim: Sim)
      ensures this.sim == sim && calls == [] && Valid()
      ensures !connected && !wasmConnected && pending == {} && polls == 0
    {
      this.sim := sim;
      connected := false;
      wasmConnected := false;
      pending := {};
      polls := 0;
      planeState := [];
      calls := [];
    }

    method Connect()
      requires Valid()
      modifies this
      ensures Valid() && calls == old(calls) + [AgentCall.Connect]
      ensures connected == sim.simConnectUp && wasmConnected == old(wasmConnected)
      ensures pending == old(pending) && polls == old(polls) && planeState == old(planeState)
    {
      calls := calls + [AgentCall.Connect];
      connected := sim.simConnectUp;
      assert WasmOpen(calls) == WasmOpen(old(calls));
    }

    method AddDataDefinitions()
      requires Valid()
      modifies this
      ensures Valid() && calls == old(calls) + [AgentCall.AddDataDefinitions]
      ensures connected == old(connected) && wasmConnected == old(wasmConnected)
      ensures pending == old(pending) && polls == old(polls) && planeState == old(planeState)
    {
      calls := calls + [AgentCall.AddDataDefinitions];
      assert SimOpen(calls) == SimOpen(old(calls));
      assert WasmOpen(calls) == WasmOpen(old(calls));
    }

    method Disconnect()
      requires Valid()
      modifies this
      ensures Valid() && calls == old(calls) + [AgentCall.Disconnect]
      ensures !connected && wasmConnected == old(wasmConnected)
      ensures pending == old(pending) && polls == old(polls) && planeState == old(planeState)
    {
      calls := calls + [AgentCall.Disconnect];
      connected := false;
      assert WasmOpen(calls) == WasmOpen(old(calls));
    }

    method WASMConnect()
      requires Valid()
      modifies this
      ensures Valid() && calls == old(calls) + [WasmConnect]
      ensures wasmConnected == sim.wasmUp && connected == old(connected)
      ensures pending == old(pending) && polls == old(polls) && planeState == old(planeState)
    {
      calls := calls + [WasmConnect];
      wasmConnected := sim.wasmUp;
      assert SimOpen(calls) == SimOpen(old(calls));
    }

    method WASMDisconnect()
      requires Valid()
      modifies this
      ensures Valid() && calls == old(calls) + [WasmDisconnect]
      ensures !wasmConnected && connected == old(connected)
      ensures pending == old(pending) && polls == old(polls) && planeState == old(planeState)
    {
      calls := calls + [WasmDisconnect];
      wasmConnected := false;
      assert SimOpen(calls) == SimOpen(old(calls));
    }

    /** Records a call that leaves the connections as they are. */
    method Record(call: AgentCall)
      requires Valid()
      requires call !in {AgentCall.Connect, AgentCall.Disconnect, WasmConnect, WasmDisconnect}
      modifies this
      ensures Valid() && calls == old(calls) + [call]
      ensures connected == old(connected) && wasmConnected == old(wasmConnected)
      ensures pending == old(pending) && polls == old(polls) && planeState == old(planeState)
    {
      calls := calls + [call];
      assert SimOpen(calls) == SimOpen(old(calls));
      assert WasmOpen(calls) == WasmOpen(old(calls));
    }

    method TriggerEvent(event: string, payload: Payload)
      requires Valid()
      modifies this
      ensures Valid() && calls == old(calls) + [AgentCall.TriggerEvent(event, payload)]
      ensures connected == old(connected) && wasmConnected == old(wasmConnected)
      ensures pending == old(pending) && polls == old(polls) && planeState == old(planeState)
    {
      Record(AgentCall.TriggerEvent(event, payload));
    }

    method TriggerPMDG(name: string, data: Option<string>)
      requires Valid()
      modifies this
      ensures Valid() && calls == old(calls) + [TriggerPmdg(name, data)]
      ensures connected == old(connected) && wasmConnected == old(wasmConnected)
      ensures pending == old(pending) && polls == old(polls) && planeState == old(planeState)
    {
      Record(TriggerPmdg(name, data));
    }

    /** TriggerWASM(name, data): sets a scripting variable. */
    method SetWasmVariable(name: string, data: Option<string>)
      requires Valid()
      modifies this
      ensures Valid() && calls == old(calls) + [SetLVar(name, data)]
      ensures connected == old(connected) && wasmConnected == old(wasmConnected)
      ensures pending == old(pending) && polls == old(polls) && planeState == old(planeState)
    {
      Record(SetLVar(name, data));
    }

    /** TriggerWASM(name): reads a scripting variable. */
    method GetWasmVariable(name: string) returns (reading: Double)
      requires Valid()
      modifies this
      ensures reading == sim.readings(name)
      ensures Valid() && calls == old(calls) + [GetLVar(name)]
      ensures connected == old(connected) && wasmConnected == old(wasmConnected)
      ensures pending == old(pending) && polls == old(polls) && planeState == old(planeState)
    {
      Record(GetLVar(name));
      reading := sim.readings(name);
    }

    /** Issues a data request; the simulator starts counting polls. */
    method RequestData(request: RequestType, definition: DataDefinition)
      requires Valid()
      modifies this
      ensures Valid() && calls == old(calls) + [AgentCall.RequestData(request, definition)]
      ensures connected == old(connected) && wasmConnected == old(wasmConnected)
      ensures pending == {request} && polls == 0 && planeState == old(planeState)
    {
      Record(AgentCall.RequestData(request, definition));
      pending := {request};
      polls := 0;
    }

    function RequestPending(request: RequestType): bool
      reads this
    {
      request in pending
    }

    /** Handles the next simulator message; `ok` is false when the call
        throws.  The poll after `delay` quiet ones delivers or throws. */
    method CheckForMessage() returns (ok: bool)
      requires Valid()
      modifies this
      ensures Valid() && calls == old(calls) + [AgentCall.CheckForMessage]
      ensures connected == old(connected) && wasmConnected == old(wasmConnected)
      ensures polls == old(polls) + 1
      ensures ok == !(sim.reply.Broken? && old(polls) >= sim.reply.delay)
      ensures sim.reply.Delivered? && old(polls) >= sim.reply.delay
        ==> pending == {} && planeState == sim.reply.state
      ensures !(sim.reply.Delivered? && old(polls) >= sim.reply.delay)
        ==> pending == old(pending) && planeState == old(planeState)
    {
      Record(AgentCall.CheckForMessage);
      ok := !(sim.reply.Broken? && polls >= sim.reply.delay);
      if sim.reply.Delivered? && polls >= sim.reply.delay {
        pending := {};
        planeState := sim.reply.state;
      }
      polls := polls + 1;
    }
  }
}
