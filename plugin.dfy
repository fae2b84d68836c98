/** VAPluginClass: VA_Invoke1 and the helpers it calls, working in place on
    the VoiceAttack proxy and on the Agents they create.  Each method is
    proved to have the effect module Dispatch gives for it. */
module Plugin {
  import opened Wrappers
  import opened Schema
  import opened Host
  import opened SimAgent
  import opened Router
  import opened Publish
  import opened Dispatch

  /** varKind: which family of command a context belongs to. */
  datatype VarKind = LVar | Pmdg | RegularVar

  /** varAction: whether a scripting variable is set or read. */
  datatype VarAction = SetVar | GetVar

  /** Whether the agent serves the current profile; the answer is logged in
      debug mode. */
  method SupportedProfile(p: Proxy) returns (supported: bool)
    modifies p
    ensures supported <==> AgentCommand in p.commands
    ensures p.vars == old(p.vars)
    ensures p.log == old(p.log) + ProfileLog(DebugMode(old(p.vars)), supported)
  {
    if !p.CommandExists(AgentCommand) {
      if DebugMode(p.vars) {
        p.WriteToLog(StandingDown, Info);
      }
      supported := false;
    } else {
      if DebugMode(p.vars) {
        p.WriteToLog(ProfileMatch, Info);
      }
      supported := true;
    }
  }

  /** A new Agent connected over SimConnect with the data definitions
      registered, or null after a failed attempt has been closed again.
      `created` is the Agent made either way. */
  method ConnectToSim(p: Proxy, sim: Sim) returns (agent: Agent?, ghost created: Agent)
    modifies p
    ensures fresh(created) && created.sim == sim && created.Valid()
    ensures created.calls == SimConnectCalls(sim.simConnectUp)
    ensures created.connected == sim.simConnectUp && !created.wasmConnected
    ensures agent == (if sim.simConnectUp then created else null)
    ensures p.vars == old(p.vars)
    ensures p.log == old(p.log) + SimConnectLog(DebugMode(old(p.vars)), sim.simConnectUp)
  {
    var a := new Agent(sim);
    created := a;
    a.Connect();
    if a.connected {
      a.AddDataDefinitions();
      if DebugMode(p.vars) {
        p.WriteToLog(SimConnected, Info);
      }
      agent := a;
    } else {
      a.Disconnect();
      p.WriteToLog(CouldNotConnect, Error);
      agent := null;
    }
  }

  /** A new Agent connected to the WASM server, or null after a failed
      attempt has been closed again. */
  method ConnectToWASM(p: Proxy, sim: Sim) returns (agent: Agent?, ghost created: Agent)
    modifies p
    ensures fresh(created) && created.sim == sim && created.Valid()
    ensures created.calls == WasmConnectCalls(sim.wasmUp)
    ensures created.wasmConnected == sim.wasmUp && !created.connected
    ensures agent == (if sim.wasmUp then created else null)
    ensures p.vars == old(p.vars)
    ensures p.log == old(p.log) + WasmConnectLog(DebugMode(old(p.vars)), sim.wasmUp)
  {
    var a := new Agent(sim);
    created := a;
    a.WASMConnect();
    if a.wasmConnected {
      if DebugMode(p.vars) {
        p.WriteToLog(WasmConnected, Info);
      }
      agent := a;
    } else {
      a.WASMDisconnect();
      p.WriteToLog(CouldNotConnect, Error);
      agent := null;
    }
  }

  /** One iteration of the foreach over PlaneState's fields: the value is
      stored under key with the setter of the field's type; `ok` is false
      when the decimal cast of a double throws, and then nothing is stored. */
  method PublishField(p: Proxy, key: string, kind: FieldKind, value: FieldValue) returns (ok: bool)
    requires Fits(value, kind)
    modifies p
    ensures ok <==> Convert(kind, value).Some?
    ensures ok ==> p.vars == old(p.vars)[key := Convert(kind, value).value]
    ensures !ok ==> p.vars == old(p.vars)
    ensures p.log == old(p.log)
  {
    if kind == BooleanField {
      p.SetBoolean(key, Some(value.b));
    }
    if kind.TextField? {
      p.SetText(key, Some(value.t));
    }
    if kind == Int32Field {
      p.SetInt(key, Some(value.i));
    }
    if kind == DoubleField {
      var d := ToDecimal(value.d);
      if d.None? {
        return false;
      }
      p.SetDecimal(key, d);
    }
    return true;
  }

  /** The foreach over the record's fields in GetPlaneData: the fields are
      published in declaration order until one cannot be.  `ok` is false
      when one could not. */
  method PublishFields(p: Proxy, fields: seq<Field>, state: seq<FieldValue>) returns (ok: bool)
    requires IsRecord(fields, state)
    modifies p
    ensures ok <==> FirstFailure(fields, state, 0) == |fields|
    ensures p.vars == Published(old(p.vars), fields, state, FirstFailure(fields, state, 0))
    ensures BooleanOf(p.vars, DebugKey) == BooleanOf(old(p.vars), DebugKey)
    ensures p.log == old(p.log)
  {
    var i := 0;
    while i < |fields|
      invariant 0 <= i <= |fields|
      invariant forall k :: 0 <= k < i ==> Convert(fields[k].kind, state[k]).Some?
      invariant p.vars == Published(old(p.vars), fields, state, i)
      invariant BooleanOf(p.vars, DebugKey) == BooleanOf(old(p.vars), DebugKey)
      invariant p.log == old(p.log)
    {
      var field := fields[i];
      ControlKeysAreNotPublished(field);
      ok := PublishField(p, PlaneStatePrefix + field.name, field.kind, state[i]);
      if !ok {
        return;
      }
      i := i + 1;
    }
    return true;
  }

  /** The wait loop of GetPlaneData: polls until the request is answered, a
      poll throws (`ok` false) or fuel polls have been made. */
  method AwaitReply(agent: Agent, fuel: nat) returns (ok: bool)
    requires agent.Valid() && agent.RequestPending(PlaneStateRequest) && agent.polls == 0
    modifies agent
    ensures agent.Valid() && agent.connected == old(agent.connected)
    ensures agent.wasmConnected == old(agent.wasmConnected)
    ensures agent.calls == old(agent.calls) + Polls(WaitPolls(agent.sim.reply, fuel))
    ensures ok <==> !(agent.sim.reply.Broken? && Answered(agent.sim.reply, fuel))
    ensures agent.RequestPending(PlaneStateRequest) <==>
      !(agent.sim.reply.Delivered? && Answered(agent.sim.reply, fuel))
    ensures agent.sim.reply.Delivered? && Answered(agent.sim.reply, fuel) ==>
      agent.planeState == agent.sim.reply.state
  {
    var reply := agent.sim.reply;
    var n: nat := 0;
    ok := true;
    while agent.RequestPending(PlaneStateRequest) && n < fuel
      invariant agent.Valid() && agent.connected == old(agent.connected)
      invariant agent.wasmConnected == old(agent.wasmConnected)
      invariant agent.polls == n <= fuel
      invariant agent.calls == old(agent.calls) + Polls(n)
      invariant reply.Broken? ==> n <= reply.delay
      invariant reply.Delivered? ==> n <= reply.delay + 1
      invariant agent.RequestPending(PlaneStateRequest) <==> !(reply.Delivered? && n > reply.delay)
      invariant reply.Delivered? && !agent.RequestPending(PlaneStateRequest) ==> agent.planeState == reply.state
      decreases fuel - n
    {
      // Thread.Sleep(10) between polls is not modelled
      ok := agent.CheckForMessage();
      n := n + 1;
      if !ok {
        return;
      }
    }
  }

  /** Requests a PlaneState record, waits for it, and publishes it.  The
      wait polls at most `fuel` times; `diverged` is true when the record
      had not arrived by then. */
  method GetPlaneData(p: Proxy, agent: Agent?, fuel: nat) returns (diverged: bool)
    requires agent != null ==> agent.Valid() && ValidSim(agent.sim)
    modifies p, agent
    ensures var s := PlaneData(DebugMode(old(p.vars)), agent != null && old(agent.connected),
                               if agent == null then Silent else agent.sim.reply, fuel, old(p.vars));
      diverged == s.diverged && p.vars == s.vars && p.log == old(p.log) + s.log &&
      (agent != null ==> agent.calls == old(agent.calls) + s.calls)
    ensures agent != null ==>
      agent.Valid() && agent.connected == old(agent.connected) && agent.wasmConnected == old(agent.wasmConnected)
  {
    var debug := DebugMode(p.vars);
    if debug {
      p.WriteToLog(PlaneDataCalled, Info);
    }
    if agent == null || !agent.connected {
      p.WriteToLog(NoConnection, Error);
      return false;
    }
    ghost var log0 := p.log;
    diverged := FetchPlaneState(p, agent, fuel);
    AppendIsAssociative(old(p.log), Debug(debug, PlaneDataCalled), p.log[|log0|..]);
  }

  /** The part of GetPlaneData after the connection check: the request,
      the wait and the publication. */
  method FetchPlaneState(p: Proxy, agent: Agent, fuel: nat) returns (diverged: bool)
    requires agent.Valid() && agent.connected && ValidSim(agent.sim)
    modifies p, agent
    ensures var f := Fetch(DebugMode(old(p.vars)), agent.sim.reply, fuel, old(p.vars));
      diverged == f.diverged && p.vars == f.vars && p.log == old(p.log) + f.log &&
      agent.calls == old(agent.calls) + f.calls
    ensures agent.Valid() && agent.connected && agent.wasmConnected == old(agent.wasmConnected)
  {
    agent.RequestData(PlaneStateRequest, PlaneStateDefinition);
    var ok := AwaitReply(agent, fuel);
    if !ok {
      p.WriteToLog(WaitFailed, Error);
      return false;
    }
    if agent.RequestPending(PlaneStateRequest) {
      return true;
    }
    StorePlaneState(p, agent.planeState);
    return false;
  }

  /** The end of GetPlaneData: the received record is published and the
      outcome logged. */
  method StorePlaneState(p: Proxy, state: seq<FieldValue>)
    requires IsPlaneState(state)
    modifies p
    ensures var s := Store(PlaneStateFields(), DebugMode(old(p.vars)), state, old(p.vars));
      p.vars == s.vars && p.log == old(p.log) + s.log
  {
    var published := PublishFields(p, PlaneStateFields(), state);
    if !published {
      p.WriteToLog(PublishFailed, Error);
    } else if DebugMode(p.vars) {
      p.WriteToLog(DataUpdated, Info);
    }
  }

  /** The "Set" case of the "L" branch: sets the scripting variable named
      after "L:" to the event data. */
  method ScriptSetPath(p: Proxy, sim: Sim, context: string) returns (outcome: Outcome, ghost agent: Agent)
    requires StartsWithL(context)
    modifies p
    ensures var e := ScriptSetRun(context[2..], DebugMode(old(p.vars)), old(p.vars), sim);
      outcome == e.outcome && p.vars == e.vars && p.log == old(p.log) + e.log &&
      fresh(agent) && agent.Valid() && agent.calls == e.calls
  {
    var a;
    a, agent := ConnectToWASM(p, sim);
    if a == null {
      return ConnectionFailed, agent;
    }
    var name := context[2..];
    if DebugMode(p.vars) {
      p.WriteToLog(ProcessingLVariable(name), Info);
    }
    var eventData := p.GetText(EventDataKey);
    a.SetWasmVariable(name, eventData);
    p.WriteToLog(ContextProcessed(name), Normal);
    a.WASMDisconnect();
    outcome := Processed;
  }

  /** The "Get" case of the "L" branch: reads the scripting variable between
      "L:" and "-G" and stores its reading as a decimal. */
  method ScriptGetPath(p: Proxy, sim: Sim, context: string) returns (outcome: Outcome, ghost agent: Agent)
    requires StartsWithL(context) && EndsWithGet(context)
    modifies p
    ensures |context| >= 4
    ensures var e := ScriptGetRun(context[2..|context| - 2], DebugMode(old(p.vars)), old(p.vars), sim);
      outcome == e.outcome && p.vars == e.vars && p.log == old(p.log) + e.log &&
      fresh(agent) && agent.Valid() && agent.calls == e.calls
  {
    var a;
    a, agent := ConnectToWASM(p, sim);
    if a == null {
      return ConnectionFailed, agent;
    }
    var name := context[2..];
    name := name[..|name| - 2];
    assert name == context[2..|context| - 2];
    if DebugMode(p.vars) {
      p.WriteToLog(ProcessingLVariableRequest(name), Info);
    }
    var reading := a.GetWasmVariable(name);
    var d := ToDecimal(reading);
    if d.None? {
      // the cast throws out of VA_Invoke1 before WASMDisconnect
      return Threw, agent;
    }
    ghost var debug := DebugMode(p.vars);
    p.SetDecimal(AltVariableKey, d);
    assert DebugMode(p.vars) == debug;
    if DebugMode(p.vars) {
      p.WriteToLog(CalculatorCode(name, reading), Info);
    }
    p.WriteToLog(VariableStatus(reading), Normal);
    a.WASMDisconnect();
    outcome := Processed;
  }

  /** The "PMDG" branch: sends the PMDG event named after "P:" with the
      event data. */
  method VendorPath(p: Proxy, sim: Sim, context: string) returns (outcome: Outcome, ghost agent: Agent)
    requires StartsWithP(context)
    modifies p
    ensures var e := VendorRun(context[2..], DebugMode(old(p.vars)), old(p.vars), sim);
      outcome == e.outcome && p.vars == e.vars && p.log == old(p.log) + e.log &&
      fresh(agent) && agent.Valid() && agent.calls == e.calls
  {
    var a;
    a, agent := ConnectToSim(p, sim);
    if a == null {
      return ConnectionFailed, agent;
    }
    var name := context[2..];
    if DebugMode(p.vars) {
      p.WriteToLog(ProcessingPmdg(name), Info);
    }
    var eventData := p.GetText(EventDataKey);
    a.TriggerPMDG(name, eventData);
    p.WriteToLog(ContextProcessed(name), Normal);
    a.Disconnect();
    outcome := Processed;
  }

  /** The "Regular" branch: the context is upper-cased and, once
      SimConnect is up, switched on. */
  method RegularPath(p: Proxy, sim: Sim, eventTypes: set<string>, fuel: nat, context: string)
    returns (outcome: Outcome, ghost agent: Agent)
    requires ValidSim(sim)
    modifies p
    ensures var e := RegularRun(Lookup(Upper(context), eventTypes), DebugMode(old(p.vars)), old(p.vars), sim, fuel);
      outcome == e.outcome && p.vars == e.vars && p.log == old(p.log) + e.log &&
      fresh(agent) && agent.Valid() && agent.calls == e.calls
  {
    var u := Upper(context);
    var a;
    a, agent := ConnectToSim(p, sim);
    if a == null {
      return ConnectionFailed, agent;
    }
    var debug := DebugMode(p.vars);
    if debug {
      p.WriteToLog(ProcessingContext(u), Info);
    }
    ghost var mid := SimConnectLog(debug, true) + Debug(debug, ProcessingContext(u));
    AppendIsAssociative(old(p.log), SimConnectLog(debug, true), Debug(debug, ProcessingContext(u)));
    outcome := SwitchOnContext(p, a, u, eventTypes, fuel);
    AppendIsAssociative(old(p.log), mid, EventRun(Lookup(u, eventTypes), debug, old(p.vars), sim, fuel).log);
  }

  /** The switch on the upper-cased context u, over a connected agent. */
  method SwitchOnContext(p: Proxy, agent: Agent, u: string, eventTypes: set<string>, fuel: nat)
    returns (outcome: Outcome)
    requires agent.Valid() && agent.connected && ValidSim(agent.sim)
    modifies p, agent
    ensures var e := EventRun(Lookup(u, eventTypes), DebugMode(old(p.vars)), old(p.vars), agent.sim, fuel);
      outcome == e.outcome && p.vars == e.vars && p.log == old(p.log) + e.log &&
      agent.Valid() && agent.calls == old(agent.calls) + e.calls
  {
    if u == SnapshotContext {
      outcome := SnapshotCase(p, agent, fuel);
      return;
    } else if InTable(u) {
      var eventData := p.GetText(EventDataKey);
      agent.TriggerEvent(u, Payload(eventData));
    } else if u in eventTypes {
      // Enum.Parse finds the name
      agent.TriggerEvent(u, NoPayload);
    } else {
      p.WriteToLog(UnknownContext(u), Error);
      agent.Disconnect();
      return UnknownEvent;
    }
    p.WriteToLog(ContextProcessed(u), Normal);
    agent.Disconnect();
    outcome := Processed;
  }

  /** The GETPLANESTATE case of the switch: GetPlaneData, then the report
      and the disconnect unless the wait is still going on. */
  method SnapshotCase(p: Proxy, agent: Agent, fuel: nat) returns (outcome: Outcome)
    requires agent.Valid() && agent.connected && ValidSim(agent.sim)
    modifies p, agent
    ensures var e := EventRun(Snapshot, DebugMode(old(p.vars)), old(p.vars), agent.sim, fuel);
      outcome == e.outcome && p.vars == e.vars && p.log == old(p.log) + e.log &&
      agent.Valid() && agent.calls == old(agent.calls) + e.calls
  {
    var diverged := GetPlaneData(p, agent, fuel);
    if diverged {
      return Diverged;
    }
    p.WriteToLog(ContextProcessed(SnapshotContext), Normal);
    agent.Disconnect();
    outcome := Processed;
  }

  /** VA_Invoke1: `eventTypes` are the names EventTypes declares and `fuel`
      bounds the polls of GetPlaneData's wait.  `agent` is the Agent the
      invocation created, null when it created none. */
  method Invoke(p: Proxy, sim: Sim, eventTypes: set<string>, fuel: nat)
    returns (outcome: Outcome, ghost agent: Agent?)
    requires ValidSim(sim)
    modifies p
    ensures var e := Run(p.context, p.commands, old(p.vars), sim, eventTypes, fuel);
      outcome == e.outcome && p.vars == e.vars && p.log == old(p.log) + e.log &&
      (agent == null ==> e.calls == []) &&
      (agent != null ==> fresh(agent) && agent.Valid() && agent.calls == e.calls)
  {
    agent := null;
    var supported := SupportedProfile(p);
    if !supported {
      return NotRun, agent;
    }
    if p.context.None? || p.context.value == "" {
      return NotRun, agent;
    }
    var context := p.context.value;
    if |context| < 2 {
      // Substring(0, 2) throws
      return Threw, agent;
    }
    var kind := RegularVar;
    var action := SetVar;
    if StartsWithL(context) {
      kind := LVar;
      if EndsWithGet(context) {
        action := GetVar;
      }
    }
    if StartsWithP(context) {
      kind := Pmdg;
    }
    match kind {
    case LVar =>
      match action {
        case SetVar =>
          assert Classify(p.context, eventTypes) == ScriptSet(context[2..]);
          outcome, agent := ScriptSetPath(p, sim, context);
        case GetVar =>
          assert Classify(p.context, eventTypes) == ScriptGet(context[2..|context| - 2]);
          outcome, agent := ScriptGetPath(p, sim, context);
      }
    case Pmdg =>
      assert Classify(p.context, eventTypes) == VendorEvent(context[2..]);
      outcome, agent := VendorPath(p, sim, context);
    case RegularVar =>
      assert Classify(p.context, eventTypes) == Lookup(Upper(context), eventTypes);
      outcome, agent := RegularPath(p, sim, eventTypes, fuel, context);
    }
    ghost var debug := DebugMode(old(p.vars));
    AppendIsAssociative(old(p.log), ProfileLog(debug, true),
                        RunAction(Classify(p.context, eventTypes), debug, old(p.vars), sim, fuel).log);
  }
}
