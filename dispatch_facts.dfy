/** What every invocation of VA_Invoke1 guarantees, proved about Run: which
    connections it leaves open, when it fails and how it says so, which log
    line closes it and which variables it may change. */
module DispatchFacts {
  import opened Wrappers
  import opened Schema
  import opened Host
  import opened SimAgent
  import opened Router
  import opened Publish
  import opened Dispatch

  /** Neither transport is open after the calls. */
  predicate Closed(calls: seq<AgentCall>)
  {
    !SimOpen(calls) && !WasmOpen(calls)
  }

  /** No line of the log reports a processed context. */
  predicate NoneProcessed(log: seq<Entry>)
  {
    forall x :: x in log ==> !x.message.ContextProcessed?
  }

  /** k is the variable some PlaneState field is published under. */
  ghost predicate IsPlaneStateKey(k: string)
  {
    exists i :: 0 <= i < FieldCount && k == Key(FieldAt(i))
  }

  /** Variable k is the same in both stores. */
  predicate Untouched(before: map<string, HostValue>, after: map<string, HostValue>, k: string)
  {
    (k in after <==> k in before) && (k in before ==> after[k] == before[k])
  }

  /** Only plane-state variables differ between the stores. */
  ghost predicate OnlyPlaneStateChanged(before: map<string, HostValue>, after: map<string, HostValue>)
  {
    forall k :: !IsPlaneStateKey(k) ==> Untouched(before, after, k)
  }

  /** The name a processed context is reported under. */
  function ProcessedName(a: Action): string
  {
    match a
    case ScriptSet(n) => n
    case ScriptGet(n) => n
    case VendorEvent(n) => n
    case _ => if IsRegular(a) then RegularName(a) else ""
  }

  /** Polls neither open nor close a connection. */
  lemma {:induction false} PollsKeepConnections(calls: seq<AgentCall>, n: nat)
    ensures SimOpen(calls + Polls(n)) == SimOpen(calls)
    ensures WasmOpen(calls + Polls(n)) == WasmOpen(calls)
  {
    if n > 0 {
      var c := calls + Polls(n);
      assert c == (calls + Polls(n - 1)) + [CheckForMessage];
      assert c[..|c| - 1] == calls + Polls(n - 1);
      PollsKeepConnections(calls, n - 1);
    } else {
      assert calls + Polls(n) == calls;
    }
  }

  /** The debug flag and the event payload are not plane-state variables. */
  lemma ControlsAreNotPlaneStateKeys()
    ensures !IsPlaneStateKey(DebugKey) && !IsPlaneStateKey(EventDataKey)
  {
    forall i | 0 <= i < FieldCount
      ensures Key(FieldAt(i)) != DebugKey && Key(FieldAt(i)) != EventDataKey
    {
      ControlKeysAreNotPublished(FieldAt(i));
    }
  }

  /** A store that changed only plane-state variables has the same debug
      flag and event payload. */
  lemma ControlsSurvive(before: map<string, HostValue>, after: map<string, HostValue>)
    requires OnlyPlaneStateChanged(before, after)
    ensures DebugMode(after) == DebugMode(before)
    ensures TextOf(after, EventDataKey) == TextOf(before, EventDataKey)
  {
    ControlsAreNotPlaneStateKeys();
    assert Untouched(before, after, DebugKey);
    assert Untouched(before, after, EventDataKey);
  }

  /** A variable that is no plane-state key is none of the record's. */
  lemma NotAFieldKey(k: string, i: nat)
    requires !IsPlaneStateKey(k) && i < FieldCount
    ensures k != Key(PlaneStateFields()[i])
  {
    assert PlaneStateFields()[i] == FieldAt(i);
  }

  /** Publishing a record leaves every variable that is not one of its
      fields' and reports no processed context. */
  lemma StoreLeavesOthers(fields: seq<Field>, debug: bool, state: seq<FieldValue>,
                          vars: map<string, HostValue>, k: string)
    requires IsRecord(fields, state)
    requires forall i :: 0 <= i < |fields| ==> k != Key(fields[i])
    ensures Untouched(vars, Store(fields, debug, state, vars).vars, k)
    ensures NoneProcessed(Store(fields, debug, state, vars).log)
  {
    PublishedLeavesOthers(vars, fields, state, FirstFailure(fields, state, 0), k);
  }

  /** Publishing a PlaneState record changes only plane-state variables and
      reports no processed context. */
  lemma StoreChangesOnlyPlaneState(debug: bool, state: seq<FieldValue>, vars: map<string, HostValue>)
    requires IsPlaneState(state)
    ensures var s := Store(PlaneStateFields(), debug, state, vars);
      OnlyPlaneStateChanged(vars, s.vars) && NoneProcessed(s.log)
  {
    var fields := PlaneStateFields();
    forall k | !IsPlaneStateKey(k)
      ensures Untouched(vars, Store(fields, debug, state, vars).vars, k)
    {
      forall i | 0 <= i < |fields| ensures k != Key(fields[i]) {
        NotAFieldKey(k, i);
      }
      StoreLeavesOthers(fields, debug, state, vars, k);
    }
  }

  /** GETPLANESTATE over a live connection either is still waiting, having
      reported nothing, or ends with the "processed" line. */
  lemma SnapshotLog(debug: bool, vars: map<string, HostValue>, sim: Sim, fuel: nat)
    requires ValidSim(sim)
    ensures var e := EventRun(Snapshot, debug, vars, sim, fuel);
      (e.outcome == Diverged || e.outcome == Processed) &&
      (e.outcome == Diverged ==> NoneProcessed(e.log)) &&
      (e.outcome == Processed ==>
         |e.log| > 0 && e.log[|e.log| - 1] == Entry(ContextProcessed(SnapshotContext), Normal) &&
         NoneProcessed(e.log[..|e.log| - 1]))
  {
    var s := PlaneData(debug, true, sim.reply, fuel, vars);
    var f := Fetch(debug, sim.reply, fuel, vars);
    assert NoneProcessed(f.log);
    assert s.log == Debug(debug, PlaneDataCalled) + f.log;
    if !s.diverged {
      var e := EventRun(Snapshot, debug, vars, sim, fuel);
      assert e.log[..|e.log| - 1] == s.log;
    }
  }

  /** GETPLANESTATE changes only plane-state variables. */
  lemma SnapshotVars(debug: bool, vars: map<string, HostValue>, sim: Sim, fuel: nat)
    requires ValidSim(sim)
    ensures OnlyPlaneStateChanged(vars, EventRun(Snapshot, debug, vars, sim, fuel).vars)
  {
    var reply := sim.reply;
    if reply.Delivered? && Answered(reply, fuel) {
      StoreChangesOnlyPlaneState(debug, reply.state, vars);
    }
  }

  /** What a path promises about the connections it leaves: both closed
      unless an exception escaped (a failed read leaves the WASM connection
      open) or the wait is still polling (SimConnect stays open), and never
      both transports used. */
  predicate ConnectionsHandled(e: Effect)
  {
    !(Connect in e.calls && WasmConnect in e.calls) &&
    (e.outcome != Threw && e.outcome != Diverged ==> Closed(e.calls)) &&
    (e.outcome == Diverged ==> SimOpen(e.calls) && !WasmOpen(e.calls)) &&
    (e.outcome == Threw && e.calls != [] ==> WasmOpen(e.calls) && !SimOpen(e.calls))
  }

  /** Polls are all CheckForMessage. */
  lemma PollsOnly(n: nat)
    ensures forall c :: c in Polls(n) ==> c == CheckForMessage
  {
  }

  /** The calls of GETPLANESTATE over a live connection: connect, request,
      poll, and disconnect unless still waiting. */
  lemma SnapshotCalls(debug: bool, vars: map<string, HostValue>, sim: Sim, fuel: nat)
    requires ValidSim(sim) && sim.simConnectUp
    ensures var e := RegularRun(Snapshot, debug, vars, sim, fuel);
      var c := [Connect, AddDataDefinitions, PlaneStateRequestCall] + Polls(WaitPolls(sim.reply, fuel));
      (e.outcome == Diverged <==> !Answered(sim.reply, fuel)) &&
      (e.outcome == Diverged ==> e.calls == c) &&
      (e.outcome != Diverged ==> e.outcome == Processed && e.calls == c + [Disconnect])
  {
    var n := WaitPolls(sim.reply, fuel);
    var s := PlaneData(debug, true, sim.reply, fuel, vars);
    assert s.calls == [PlaneStateRequestCall] + Polls(n);
    assert SimConnectCalls(true) + s.calls == [Connect, AddDataDefinitions, PlaneStateRequestCall] + Polls(n);
    assert SimConnectCalls(true) + (s.calls + [Disconnect]) ==
           [Connect, AddDataDefinitions, PlaneStateRequestCall] + Polls(n) + [Disconnect];
  }

  /** Connecting, requesting and polling leaves SimConnect open; a
      disconnect then closes it; the WASM connection is never opened. */
  lemma PolledConnections(n: nat)
    ensures var c := [Connect, AddDataDefinitions, PlaneStateRequestCall] + Polls(n);
      SimOpen(c) && !WasmOpen(c) && !SimOpen(c + [Disconnect]) && !WasmOpen(c + [Disconnect]) &&
      Connect in c && WasmConnect !in c + [Disconnect]
  {
    var open := [Connect, AddDataDefinitions, PlaneStateRequestCall];
    assert open[..2] == [Connect, AddDataDefinitions] && open[..2][..1] == [Connect];
    assert SimOpen(open);
    assert !WasmOpen(open) by {
      assert WasmConnect !in open;
    }
    PollsKeepConnections(open, n);
    PollsOnly(n);
    var c := open + Polls(n);
    assert (c + [Disconnect])[..|c|] == c;
  }

  lemma SnapshotConnections(debug: bool, vars: map<string, HostValue>, sim: Sim, fuel: nat)
    requires ValidSim(sim)
    ensures ConnectionsHandled(RegularRun(Snapshot, debug, vars, sim, fuel))
  {
    if sim.simConnectUp {
      SnapshotCalls(debug, vars, sim, fuel);
      PolledConnections(WaitPolls(sim.reply, fuel));
    }
  }

  lemma ScriptSetConnections(n: string, debug: bool, vars: map<string, HostValue>, sim: Sim)
    ensures ConnectionsHandled(ScriptSetRun(n, debug, vars, sim))
  {
  }

  lemma ScriptGetConnections(n: string, debug: bool, vars: map<string, HostValue>, sim: Sim)
    ensures ConnectionsHandled(ScriptGetRun(n, debug, vars, sim))
  {
  }

  lemma VendorConnections(n: string, debug: bool, vars: map<string, HostValue>, sim: Sim)
    ensures ConnectionsHandled(VendorRun(n, debug, vars, sim))
  {
  }

  lemma EventConnections(a: Action, debug: bool, vars: map<string, HostValue>, sim: Sim, fuel: nat)
    requires ValidSim(sim) && (a.TableEvent? || a.DirectEvent? || a.Unknown?)
    ensures ConnectionsHandled(RegularRun(a, debug, vars, sim, fuel))
  {
  }

  /** Every path handles its connections. */
  lemma ActionConnections(a: Action, debug: bool, vars: map<string, HostValue>, sim: Sim, fuel: nat)
    requires ValidSim(sim)
    ensures ConnectionsHandled(RunAction(a, debug, vars, sim, fuel))
  {
    match a
    case NoContext =>
    case TooShort =>
    case ScriptSet(n) => ScriptSetConnections(n, debug, vars, sim);
    case ScriptGet(n) => ScriptGetConnections(n, debug, vars, sim);
    case VendorEvent(n) => VendorConnections(n, debug, vars, sim);
    case Snapshot => SnapshotConnections(debug, vars, sim, fuel);
    case _ => EventConnections(a, debug, vars, sim, fuel);
  }

  /** After a run, neither connection is open unless an exception escaped or
      the wait is still polling, and at most one transport was used. */
  lemma RunLeavesConnections(context: Option<string>, commands: set<string>, vars: map<string, HostValue>,
                             sim: Sim, eventTypes: set<string>, fuel: nat)
    requires ValidSim(sim)
    ensures var e := Run(context, commands, vars, sim, eventTypes, fuel);
      !(Connect in e.calls && WasmConnect in e.calls) &&
      (e.outcome != Threw && e.outcome != Diverged ==> Closed(e.calls)) &&
      (e.outcome == Diverged ==> SimOpen(e.calls) && !WasmOpen(e.calls)) &&
      (e.outcome == Threw && e.calls != [] ==> WasmOpen(e.calls) && !SimOpen(e.calls))
  {
    if AgentCommand in commands {
      ActionConnections(Classify(context, eventTypes), DebugMode(vars), vars, sim, fuel);
    }
  }

  /** A profile without the agent's command, and an empty context, make no
      call and change no variable; those are the only runs that end NotRun. */
  lemma RunWithoutWork(context: Option<string>, commands: set<string>, vars: map<string, HostValue>,
                       sim: Sim, eventTypes: set<string>, fuel: nat)
    requires ValidSim(sim)
    ensures var e := Run(context, commands, vars, sim, eventTypes, fuel);
      (e.outcome == NotRun <==> AgentCommand !in commands || context.None? || context.value == "") &&
      (e.outcome == NotRun ==> e.calls == [] && e.vars == vars) &&
      (e.outcome == NotRun ==> e.log == ProfileLog(DebugMode(vars), AgentCommand in commands))
  {
    var a := Classify(context, eventTypes);
    if AgentCommand in commands && a == Snapshot && sim.simConnectUp {
      SnapshotCalls(DebugMode(vars), vars, sim, fuel);
    }
  }

  /** A connection that does not come up ends the run with one error line
      and the connect/disconnect pair, and nothing else: this happens
      exactly when the path's transport is down. */
  lemma RunConnectionFailure(context: Option<string>, commands: set<string>, vars: map<string, HostValue>,
                             sim: Sim, eventTypes: set<string>, fuel: nat)
    requires ValidSim(sim)
    ensures var e := Run(context, commands, vars, sim, eventTypes, fuel);
      var a := Classify(context, eventTypes);
      (e.outcome == ConnectionFailed <==>
         AgentCommand in commands &&
         (((a.ScriptSet? || a.ScriptGet?) && !sim.wasmUp) ||
          ((a.VendorEvent? || IsRegular(a)) && !sim.simConnectUp))) &&
      (e.outcome == ConnectionFailed ==>
         e.vars == vars &&
         e.log == ProfileLog(DebugMode(vars), true) + [Entry(CouldNotConnect, Error)] &&
         (e.calls == [Connect, Disconnect] || e.calls == [WasmConnect, WasmDisconnect]))
  {
    var a := Classify(context, eventTypes);
    if AgentCommand in commands && a == Snapshot && sim.simConnectUp {
      SnapshotCalls(DebugMode(vars), vars, sim, fuel);
    }
  }

  /** The log reports the context: a processed run (other than a read of a
      scripting variable, which reports the reading instead) ends with the
      "processed" line naming it, and no other run writes that line. */
  predicate Reports(a: Action, outcome: Outcome, log: seq<Entry>)
  {
    if outcome == Processed && !a.ScriptGet? then
      |log| > 0 && log[|log| - 1] == Entry(ContextProcessed(ProcessedName(a)), Normal) &&
      NoneProcessed(log[..|log| - 1])
    else NoneProcessed(log)
  }

  /** Lines written before a reporting log that report nothing keep it
      reporting. */
  lemma ReportsBehind(a: Action, outcome: Outcome, head: seq<Entry>, log: seq<Entry>)
    requires NoneProcessed(head) && Reports(a, outcome, log)
    ensures Reports(a, outcome, head + log)
  {
    if outcome == Processed && !a.ScriptGet? {
      assert (head + log)[..|head + log| - 1] == head + log[..|log| - 1];
    }
  }

  lemma ScriptSetReports(n: string, debug: bool, vars: map<string, HostValue>, sim: Sim)
    ensures var e := ScriptSetRun(n, debug, vars, sim); Reports(ScriptSet(n), e.outcome, e.log)
  {
    var e := ScriptSetRun(n, debug, vars, sim);
    if e.outcome == Processed {
      assert e.log[..|e.log| - 1] == WasmConnectLog(debug, true) + Debug(debug, ProcessingLVariable(n));
    }
  }

  lemma VendorReports(n: string, debug: bool, vars: map<string, HostValue>, sim: Sim)
    ensures var e := VendorRun(n, debug, vars, sim); Reports(VendorEvent(n), e.outcome, e.log)
  {
    var e := VendorRun(n, debug, vars, sim);
    if e.outcome == Processed {
      assert e.log[..|e.log| - 1] == SimConnectLog(debug, true) + Debug(debug, ProcessingPmdg(n));
    }
  }

  lemma EventReports(a: Action, debug: bool, vars: map<string, HostValue>, sim: Sim, fuel: nat)
    requires IsRegular(a) && ValidSim(sim)
    ensures var t := EventRun(a, debug, vars, sim, fuel); Reports(a, t.outcome, t.log)
  {
    if a == Snapshot {
      SnapshotLog(debug, vars, sim, fuel);
    }
  }

  lemma RegularReports(a: Action, debug: bool, vars: map<string, HostValue>, sim: Sim, fuel: nat)
    requires IsRegular(a) && ValidSim(sim)
    ensures var e := RegularRun(a, debug, vars, sim, fuel); Reports(a, e.outcome, e.log)
  {
    if sim.simConnectUp {
      var t := EventRun(a, debug, vars, sim, fuel);
      EventReports(a, debug, vars, sim, fuel);
      ReportsBehind(a, t.outcome, SimConnectLog(debug, true) + Debug(debug, ProcessingContext(RegularName(a))), t.log);
    }
  }

  lemma ActionReports(a: Action, debug: bool, vars: map<string, HostValue>, sim: Sim, fuel: nat)
    requires ValidSim(sim)
    ensures var e := RunAction(a, debug, vars, sim, fuel); Reports(a, e.outcome, e.log)
  {
    match a
    case NoContext =>
    case TooShort =>
    case ScriptGet(n) =>
    case ScriptSet(n) => ScriptSetReports(n, debug, vars, sim);
    case VendorEvent(n) => VendorReports(n, debug, vars, sim);
    case _ => RegularReports(a, debug, vars, sim, fuel);
  }

  /** VA_Invoke1 writes "Context <name> processed" as its last line exactly
      when it processed a context other than a scripting-variable read, and
      writes no such line otherwise. */
  lemma RunReportsContext(context: Option<string>, commands: set<string>, vars: map<string, HostValue>,
                          sim: Sim, eventTypes: set<string>, fuel: nat)
    requires ValidSim(sim)
    ensures var e := Run(context, commands, vars, sim, eventTypes, fuel);
      Reports(Classify(context, eventTypes), e.outcome, e.log)
  {
    var debug := DebugMode(vars);
    if AgentCommand in commands {
      var a := Classify(context, eventTypes);
      var x := RunAction(a, debug, vars, sim, fuel);
      ActionReports(a, debug, vars, sim, fuel);
      ReportsBehind(a, x.outcome, ProfileLog(debug, true), x.log);
    }
  }

  /** The read writes only Alt_Variable, which is a plane-state variable. */
  lemma ScriptGetVars(n: string, debug: bool, vars: map<string, HostValue>, sim: Sim)
    ensures OnlyPlaneStateChanged(vars, ScriptGetRun(n, debug, vars, sim).vars)
  {
    AltVariableIsLastAndDouble();
    assert AltVariableKey == Key(FieldAt(FieldCount - 1));
    assert IsPlaneStateKey(AltVariableKey);
  }

  /** Every path but the read and the snapshot leaves the store as it was. */
  lemma OtherPathsKeepVars(a: Action, debug: bool, vars: map<string, HostValue>, sim: Sim, fuel: nat)
    requires ValidSim(sim) && !a.ScriptGet? && a != Snapshot
    ensures RunAction(a, debug, vars, sim, fuel).vars == vars
  {
  }

  /** Every path changes only plane-state variables. */
  lemma ActionVars(a: Action, debug: bool, vars: map<string, HostValue>, sim: Sim, fuel: nat)
    requires ValidSim(sim)
    ensures OnlyPlaneStateChanged(vars, RunAction(a, debug, vars, sim, fuel).vars)
  {
    match a
    case ScriptGet(n) =>
      ScriptGetVars(n, debug, vars, sim);
    case Snapshot =>
      if sim.simConnectUp {
        SnapshotVars(debug, vars, sim, fuel);
      }
    case _ =>
      OtherPathsKeepVars(a, debug, vars, sim, fuel);
  }

  /** VA_Invoke1 writes no variable but the plane-state ones: in particular
      the debug flag and the event payload it reads survive every run. */
  lemma RunChangesOnlyPlaneState(context: Option<string>, commands: set<string>, vars: map<string, HostValue>,
                                 sim: Sim, eventTypes: set<string>, fuel: nat)
    requires ValidSim(sim)
    ensures var e := Run(context, commands, vars, sim, eventTypes, fuel);
      OnlyPlaneStateChanged(vars, e.vars) &&
      DebugMode(e.vars) == DebugMode(vars) && TextOf(e.vars, EventDataKey) == TextOf(vars, EventDataKey)
  {
    var e := Run(context, commands, vars, sim, eventTypes, fuel);
    if AgentCommand in commands {
      ActionVars(Classify(context, eventTypes), DebugMode(vars), vars, sim, fuel);
    }
    ControlsSurvive(vars, e.vars);
  }

  /** A run diverges exactly when GETPLANESTATE is still waiting after fuel
      polls; it then holds SimConnect open after fuel polls. */
  lemma RunDivergesOnlyWaiting(context: Option<string>, commands: set<string>, vars: map<string, HostValue>,
                               sim: Sim, eventTypes: set<string>, fuel: nat)
    requires ValidSim(sim)
    ensures var e := Run(context, commands, vars, sim, eventTypes, fuel);
      (e.outcome == Diverged <==>
         AgentCommand in commands && Classify(context, eventTypes) == Snapshot &&
         sim.simConnectUp && !Answered(sim.reply, fuel)) &&
      (e.outcome == Diverged ==>
         e.calls == [Connect, AddDataDefinitions, PlaneStateRequestCall] + Polls(fuel))
  {
    if AgentCommand in commands && Classify(context, eventTypes) == Snapshot && sim.simConnectUp {
      SnapshotCalls(DebugMode(vars), vars, sim, fuel);
    }
  }

  /** A simulator that never answers makes GETPLANESTATE diverge whatever
      the bound on polls. */
  lemma SilentSimulatorDiverges(context: Option<string>, commands: set<string>, vars: map<string, HostValue>,
                                sim: Sim, eventTypes: set<string>, fuel: nat)
    requires ValidSim(sim) && sim.reply.Silent? && sim.simConnectUp
    requires AgentCommand in commands && Classify(context, eventTypes) == Snapshot
    ensures Run(context, commands, vars, sim, eventTypes, fuel).outcome == Diverged
  {
    RunDivergesOnlyWaiting(context, commands, vars, sim, eventTypes, fuel);
  }

  /** An exception escapes exactly for a one-character context and for a
      scripting-variable reading that the decimal cast rejects. */
  lemma RunThrowsExactly(context: Option<string>, commands: set<string>, vars: map<string, HostValue>,
                         sim: Sim, eventTypes: set<string>, fuel: nat)
    requires ValidSim(sim)
    ensures var e := Run(context, commands, vars, sim, eventTypes, fuel);
      var a := Classify(context, eventTypes);
      e.outcome == Threw <==>
        AgentCommand in commands &&
        (a == TooShort || (a.ScriptGet? && sim.wasmUp && ToDecimal(sim.readings(a.name)).None?))
  {
    if AgentCommand in commands && Classify(context, eventTypes) == Snapshot && sim.simConnectUp {
      SnapshotCalls(DebugMode(vars), vars, sim, fuel);
    }
  }

  /** A delivered record is published field by field: every field before
      the first that cannot be stored reads back as its value, and the
      error line appears exactly when some field could not be stored. */
  lemma StorePublishes(fields: seq<Field>, debug: bool, state: seq<FieldValue>, vars: map<string, HostValue>)
    requires IsRecord(fields, state) && DistinctNames(fields)
    ensures var s := Store(fields, debug, state, vars);
      var j := FirstFailure(fields, state, 0);
      (forall i :: 0 <= i < j ==>
         Key(fields[i]) in s.vars && ReadBack(fields[i].kind, s.vars[Key(fields[i])]) == Some(state[i])) &&
      (Entry(PublishFailed, Error) in s.log <==> j < |fields|)
  {
    var j := FirstFailure(fields, state, 0);
    PublishedValues(vars, fields, state, j);
    forall i | 0 <= i < j
      ensures ReadBack(fields[i].kind, Convert(fields[i].kind, state[i]).value) == Some(state[i])
    {
      ConvertReadsBack(fields[i].kind, state[i]);
    }
  }

  /** A record delivered in time is published by Store and nothing else. */
  lemma FetchStores(debug: bool, reply: Reply, fuel: nat, vars: map<string, HostValue>)
    requires reply.Delivered? && IsPlaneState(reply.state) && Answered(reply, fuel)
    ensures var f := Fetch(debug, reply, fuel, vars);
      var st := Store(PlaneStateFields(), debug, reply.state, vars);
      !f.diverged && f.vars == st.vars && f.log == st.log
  {
  }

  /** Run on a regular context once SimConnect is up: the profile check,
      the connection, the processing line, then the switch's own effect. */
  lemma RegularRunShape(context: Option<string>, commands: set<string>, vars: map<string, HostValue>,
                        sim: Sim, eventTypes: set<string>, fuel: nat)
    requires ValidSim(sim) && sim.simConnectUp && AgentCommand in commands
    requires IsRegular(Classify(context, eventTypes))
    ensures var a := Classify(context, eventTypes);
      var debug := DebugMode(vars);
      var t := EventRun(a, debug, vars, sim, fuel);
      var e := Run(context, commands, vars, sim, eventTypes, fuel);
      e.outcome == t.outcome && e.vars == t.vars && e.calls == SimConnectCalls(true) + t.calls &&
      e.log == ProfileLog(debug, true) + SimConnectLog(debug, true) + Debug(debug, ProcessingContext(RegularName(a))) + t.log
  {
    var a := Classify(context, eventTypes);
    var debug := DebugMode(vars);
    var t := EventRun(a, debug, vars, sim, fuel);
    AppendIsAssociative(ProfileLog(debug, true), SimConnectLog(debug, true) + Debug(debug, ProcessingContext(RegularName(a))), t.log);
    AppendIsAssociative(ProfileLog(debug, true), SimConnectLog(debug, true), Debug(debug, ProcessingContext(RegularName(a))));
  }

  /** The snapshot over a live connection with a record delivered in time:
      the record's publication, then the report. */
  lemma SnapshotEventStores(debug: bool, vars: map<string, HostValue>, sim: Sim, fuel: nat)
    requires ValidSim(sim) && sim.reply.Delivered? && Answered(sim.reply, fuel)
    ensures var t := EventRun(Snapshot, debug, vars, sim, fuel);
      var st := Store(PlaneStateFields(), debug, sim.reply.state, vars);
      t.outcome == Processed && t.vars == st.vars &&
      t.log == Debug(debug, PlaneDataCalled) + st.log + [Entry(ContextProcessed(SnapshotContext), Normal)]
  {
    FetchStores(debug, sim.reply, fuel, vars);
  }

  /** GETPLANESTATE with a record delivered in time ends processed, with
      the variables of the record's publication and its error line if any. */
  lemma SnapshotStores(context: Option<string>, commands: set<string>, vars: map<string, HostValue>,
                       sim: Sim, eventTypes: set<string>, fuel: nat)
    requires ValidSim(sim) && sim.simConnectUp && sim.reply.Delivered? && Answered(sim.reply, fuel)
    requires AgentCommand in commands && Classify(context, eventTypes) == Snapshot
    ensures var e := Run(context, commands, vars, sim, eventTypes, fuel);
      var st := Store(PlaneStateFields(), DebugMode(vars), sim.reply.state, vars);
      e.outcome == Processed && e.vars == st.vars &&
      (Entry(PublishFailed, Error) in e.log <==> Entry(PublishFailed, Error) in st.log)
  {
    var debug := DebugMode(vars);
    RegularRunShape(context, commands, vars, sim, eventTypes, fuel);
    SnapshotEventStores(debug, vars, sim, fuel);
    var head := ProfileLog(debug, true) + SimConnectLog(debug, true) + Debug(debug, ProcessingContext(SnapshotContext));
    assert Entry(PublishFailed, Error) !in head + Debug(debug, PlaneDataCalled);
  }

  /** GETPLANESTATE with a record delivered in time publishes it: every
      field before the first that cannot be stored reads back as its value
      under its PlaneState variable, the error line appears exactly when
      some field could not be stored, and the context is still processed. */
  lemma SnapshotPublishesRecord(context: Option<string>, commands: set<string>, vars: map<string, HostValue>,
                                sim: Sim, eventTypes: set<string>, fuel: nat)
    requires ValidSim(sim) && sim.simConnectUp && sim.reply.Delivered? && Answered(sim.reply, fuel)
    requires AgentCommand in commands && Classify(context, eventTypes) == Snapshot
    ensures var e := Run(context, commands, vars, sim, eventTypes, fuel);
      var fields := PlaneStateFields();
      var state := sim.reply.state;
      var j := FirstFailure(fields, state, 0);
      e.outcome == Processed &&
      (forall i :: 0 <= i < j ==>
         Key(fields[i]) in e.vars && ReadBack(fields[i].kind, e.vars[Key(fields[i])]) == Some(state[i])) &&
      (Entry(PublishFailed, Error) in e.log <==> j < FieldCount)
  {
    var debug := DebugMode(vars);
    var st := Store(PlaneStateFields(), debug, sim.reply.state, vars);
    SnapshotStores(context, commands, vars, sim, eventTypes, fuel);
    PlaneStateNamesDistinct();
    StorePublishes(PlaneStateFields(), debug, sim.reply.state, vars);
  }

  /** The snapshot over a live connection when the wait throws: the wait
      error, then the report, then the disconnect. */
  lemma SnapshotWaitFails(debug: bool, vars: map<string, HostValue>, sim: Sim, fuel: nat)
    requires ValidSim(sim) && sim.reply.Broken? && Answered(sim.reply, fuel)
    ensures var t := EventRun(Snapshot, debug, vars, sim, fuel);
      t.outcome == Processed && t.vars == vars &&
      t.log == Debug(debug, PlaneDataCalled) + [Entry(WaitFailed, Error)] +
        [Entry(ContextProcessed(SnapshotContext), Normal)] &&
      t.calls[|t.calls| - 1] == Disconnect
  {
  }

  /** A simulator that throws while GETPLANESTATE waits: the wait error is
      logged, no variable changes, and the context is still reported as
      processed and SimConnect closed. */
  lemma WaitFailureStillProcessed(context: Option<string>, commands: set<string>, vars: map<string, HostValue>,
                                  sim: Sim, eventTypes: set<string>, fuel: nat)
    requires ValidSim(sim) && sim.simConnectUp && sim.reply.Broken? && Answered(sim.reply, fuel)
    requires AgentCommand in commands && Classify(context, eventTypes) == Snapshot
    ensures var e := Run(context, commands, vars, sim, eventTypes, fuel);
      e.outcome == Processed && e.vars == vars && |e.log| >= 2 &&
      e.log[|e.log| - 2] == Entry(WaitFailed, Error) &&
      e.log[|e.log| - 1] == Entry(ContextProcessed(SnapshotContext), Normal) &&
      e.calls[|e.calls| - 1] == Disconnect
  {
    var debug := DebugMode(vars);
    SnapshotWaitFails(debug, vars, sim, fuel);
    var t := EventRun(Snapshot, debug, vars, sim, fuel);
    var e := Run(context, commands, vars, sim, eventTypes, fuel);
    var head := ProfileLog(debug, true) + (SimConnectLog(debug, true) + Debug(debug, ProcessingContext(SnapshotContext)));
    assert e.log == head + t.log;
    assert e.calls == [Connect, AddDataDefinitions] + t.calls;
  }

  /** Reading a scripting variable: a reading the decimal cast accepts is
      stored under Alt_Variable, the last PlaneState variable, where it reads
      back as that reading, and only the "-G" suffix is dropped from the
      name; a reading it rejects throws with the WASM connection open and
      nothing stored. */
  lemma ScriptReadStoresReading(context: Option<string>, commands: set<string>, vars: map<string, HostValue>,
                                sim: Sim, eventTypes: set<string>, fuel: nat)
    requires ValidSim(sim) && sim.wasmUp && AgentCommand in commands
    requires Classify(context, eventTypes).ScriptGet?
    ensures var e := Run(context, commands, vars, sim, eventTypes, fuel);
      var n := Classify(context, eventTypes).name;
      var reading := sim.readings(n);
      GetLVar(n) in e.calls &&
      (ToDecimal(reading).None? ==> e.outcome == Threw && e.vars == vars && WasmOpen(e.calls)) &&
      (ToDecimal(reading).Some? ==>
         e.outcome == Processed && Closed(e.calls) &&
         e.vars == vars[Key(FieldAt(FieldCount - 1)) := DecimalVar(ToDecimal(reading))] &&
         ReadBack(FieldAt(FieldCount - 1).kind, e.vars[Key(FieldAt(FieldCount - 1))]) == Some(DoubleValue(reading)))
  {
    var a := Classify(context, eventTypes);
    ScriptGetConnections(a.name, DebugMode(vars), vars, sim);
    AltVariableIsLastAndDouble();
    assert AltVariableKey == Key(FieldAt(FieldCount - 1));
  }

  /** Over a live connection a table event is sent with the event data, any
      other EventTypes member without it, and either is followed by a
      disconnect; a name that is neither is reported as an error and sends
      nothing. */
  lemma EventsAreSent(context: Option<string>, commands: set<string>, vars: map<string, HostValue>,
                      sim: Sim, eventTypes: set<string>, fuel: nat)
    requires ValidSim(sim) && sim.simConnectUp && AgentCommand in commands
    requires var a := Classify(context, eventTypes); a.TableEvent? || a.DirectEvent? || a.Unknown?
    ensures var e := Run(context, commands, vars, sim, eventTypes, fuel);
      var a := Classify(context, eventTypes);
      var u := a.event;
      (a.TableEvent? ==>
         e.outcome == Processed &&
         e.calls == [Connect, AddDataDefinitions, TriggerEvent(u, Payload(TextOf(vars, EventDataKey))), Disconnect]) &&
      (a.DirectEvent? ==>
         e.outcome == Processed &&
         e.calls == [Connect, AddDataDefinitions, TriggerEvent(u, NoPayload), Disconnect]) &&
      (a.Unknown? ==>
         e.outcome == UnknownEvent &&
         e.calls == [Connect, AddDataDefinitions, Disconnect] &&
         e.log[|e.log| - 1] == Entry(UnknownContext(u), Error))
  {
  }

  /** Setting a scripting variable and sending a PMDG event each carry the
      event data over their own transport, then close it, and store
      nothing. */
  lemma PayloadPathsSendEventData(context: Option<string>, commands: set<string>, vars: map<string, HostValue>,
                                  sim: Sim, eventTypes: set<string>, fuel: nat)
    requires ValidSim(sim) && AgentCommand in commands
    ensures var e := Run(context, commands, vars, sim, eventTypes, fuel);
      var a := Classify(context, eventTypes);
      var data := TextOf(vars, EventDataKey);
      (a.ScriptSet? && sim.wasmUp ==>
         e.outcome == Processed && e.vars == vars &&
         e.calls == [WasmConnect, SetLVar(a.name, data), WasmDisconnect]) &&
      (a.VendorEvent? && sim.simConnectUp ==>
         e.outcome == Processed && e.vars == vars &&
         e.calls == [Connect, AddDataDefinitions, TriggerPmdg(a.name, data), Disconnect])
  {
  }

  /** As written, a scripting-variable read whose reading the decimal cast
      rejects throws after WASMConnect and before WASMDisconnect: with the
      WASM server up and a NaN reading, the WASM connection stays open. */
  lemma ScriptReadLeavesWasmOpen(n: string, debug: bool, vars: map<string, HostValue>)
    ensures var sim := Sim(false, true, (_ => NaN), Silent);
      var e := ScriptGetRun(n, debug, vars, sim);
      e.outcome == Threw && WasmOpen(e.calls)
  {
    var sim := Sim(false, true, (_ => NaN), Silent);
    assert ToDecimal(sim.readings(n)).None?;
  }

  /** The read as its error handling elsewhere intends: a reading the cast
      rejects is reported, nothing is stored, and the WASM connection is
      closed before returning. */
  function ScriptGetRunClosing(n: string, debug: bool, vars: map<string, HostValue>, sim: Sim): Effect
  {
    var e := ScriptGetRun(n, debug, vars, sim);
    if e.outcome == Threw then
      Effect(ReadFailed, e.calls + [WasmDisconnect], e.log + [Entry(ReadNotStored(n), Error)], vars)
    else e
  }

  /** The corrected read never throws and always leaves both connections
      closed; it differs from the code only on the rejected reading. */
  lemma ScriptGetClosingCloses(n: string, debug: bool, vars: map<string, HostValue>, sim: Sim)
    ensures var r := ScriptGetRunClosing(n, debug, vars, sim);
      r.outcome != Threw && Closed(r.calls) && r.vars == ScriptGetRun(n, debug, vars, sim).vars &&
      (r.outcome == ReadFailed <==> sim.wasmUp && ToDecimal(sim.readings(n)).None?) &&
      (r.outcome != ReadFailed ==> r == ScriptGetRun(n, debug, vars, sim))
  {
    var e := ScriptGetRun(n, debug, vars, sim);
    if e.outcome == Threw {
      assert e.calls == [WasmConnect, GetLVar(n)];
      assert e.calls + [WasmDisconnect] == [WasmConnect, GetLVar(n), WasmDisconnect];
    }
  }
}
