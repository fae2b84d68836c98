# MSFS Agent plugin: command dispatch and plane-state publication

MSFS Agent is a VoiceAttack plugin for Microsoft Flight Simulator.
VoiceAttack calls `VA_Invoke1` with a text context. The plugin:

- checks that the active profile has the "MSFS Agent" command;
- sorts the context into one of these actions:
  - a scripting-variable read (`L:` name `-G`);
  - a scripting-variable write (`L:` name);
  - a PMDG event (`P:` name);
  - the plane-state snapshot;
  - one of the 26 table events sent with the event data;
  - any other `EventTypes` name, sent without data;
  - an unknown name;
- opens the transport the action needs (SimConnect or the WASM server), does the action, and closes the transport again.

The snapshot requests one `PlaneState` record from the simulator and polls until it arrives. It then publishes each of the record's 104 fields in declaration order as a VoiceAttack variable named `MSFSAgent.PlaneState.<field>`, using the setter for the field's type.

The model is split into these modules:

- **`Schema`**: the `PlaneState` struct as a constant ordered schema of 104 (name, kind) pairs, with its sequential `Pack = 1` layout and inverse name lookup. Also `RequestTypes` and `DataDefinitions`.
- **`Host`**: the VoiceAttack proxy. It is a class holding the context, the profile's commands, a typed variable store (a `map`) and the log (a `seq`). Its setters and `WriteToLog` update these in place.
- **`SimAgent`**: the Agent as an interface.
  - An `Agent` object records every call made on it in order and tracks its two connection flags and the pending request.
  - It answers from a `Sim` value that says:
    - whether each transport accepts a connection;
    - what each scripting variable reads;
    - after how many polls the record request is answered, if ever.
- **`Router`** and **`RouterFacts`**: the pure classification `Classify` of a context into an `Action`, and what it promises.
- **`Publish`**: converting a record to variables.
- **`Dispatch`**: the effect of one invocation as functions. The effect is the agent calls, the log lines, the final store and the outcome.
- **`Plugin`**: `VA_Invoke1` and its helpers as imperative methods on the proxy and on the Agents they create. Each method is proved to have exactly the effect `Dispatch` gives for it.
- **`DispatchFacts`**: the properties of those effects:
  - every connection opened is closed;
  - only plane-state variables change;
  - "Context processed" is reported exactly on the processed paths;
  - the divergence, throw and connection-failure conditions;
  - the publication of a received record.

Nothing in the model performs I/O. The simulator and the host are parameters, and the wait loop's polls are bounded by a `fuel` parameter.

Three behaviours of the code shape the model:

- The publication is one `try` around the whole `foreach` (`msfs-agent/VAPluginClass.cs:496-515`). The first write that throws ends it: the earlier variables keep their new values and the later ones are not written. `Publish.Published` and `Plugin.PublishFields` model that.
- The scripting-variable read casts the reading with `(decimal?)(double?)` (`msfs-agent/VAPluginClass.cs:162`). The cast throws for NaN, an infinity or a value outside the decimal range. The `WASMDisconnect` at line 170 is then skipped, so the WASM connection stays open. This is the `Threw` case of `DispatchFacts.RunLeavesConnections`, and the row under "## Findings".
- Two exceptions escape `VA_Invoke1`, because nothing in it catches them: `Substring(0, 2)` on a one-character context (line 101) and the cast above. The model ends both with the outcome `Threw` (`DispatchFacts.RunThrowsExactly`).

## Model

| member | source | states |
|---|---|---|
| Schema.PlaneStateFields | msfs-agent/DataRequests.cs:38-149 | the static schema replacing `typeof(PlaneState).GetFields()`: 104 fields, the i-th being the i-th declared field with its name and kind |
| Schema.FieldAt | msfs-agent/DataRequests.cs:38-149 | definition of the i-th declared field, name and kind; Schema.PlaneStateFields and Schema.FieldIndexInverse state what it gives |
| Schema.FieldIndex | msfs-agent/DataRequests.cs:38-149 | looking a name up finds a declared field of that name |
| Schema.FieldIndexInverse | msfs-agent/DataRequests.cs:38-149 | looking up the name of field i gives back i, for every field |
| Schema.FieldNamesDistinct | msfs-agent/DataRequests.cs:38-149 | no two declared fields share a name |
| Schema.PlaneStateNamesDistinct | msfs-agent/DataRequests.cs:38-149 | the schema sequence has pairwise distinct names |
| Schema.FieldKindsSupported | msfs-agent/DataRequests.cs:41-148 | every field is an int, a bool, a double or a 256-character text, which are the four kinds the publication dispatches on |
| Schema.TextFieldsAreTheAtcFieldsAndTitle | msfs-agent/DataRequests.cs:46-51 | a field is text if and only if it is Atc_Airline, Atc_Flight_Number, Atc_Id or Title |
| Schema.AltVariableIsLastAndDouble | msfs-agent/DataRequests.cs:148 | the last field is the double Alt_Variable, and no other field has that name |
| Schema.MarshalSize | msfs-agent/DataRequests.cs:37-149 | a text field marshals to its SizeConst, an int and a default-marshalled bool to 4 bytes, a double to 8 |
| Schema.Offset | msfs-agent/DataRequests.cs:37-149 | definition of a field's offset as the sum of the marshalled sizes before it; Schema.OffsetsIncrease and Schema.StructSize state what it gives |
| Schema.OffsetsIncrease | msfs-agent/DataRequests.cs:37-149 | with sequential Pack=1 layout, field offsets strictly increase in declaration order |
| Schema.StructSize | msfs-agent/DataRequests.cs:37-149 | the marshalled record is 1512 bytes long |
| SimAgent.AtMostOnePending | msfs-agent/DataRequests.cs:23-26 | RequestTypes has the single member PlaneState, so at most one kind of request can be pending |
| SimAgent.SimOpen | msfs-agent/VAPluginClass.cs:413-436 | a SimConnect connection is open only after a Connect |
| SimAgent.WasmOpen | msfs-agent/VAPluginClass.cs:439-459 | a WASM connection is open only after a WASMConnect |
| SimAgent.Agent.RequestData | msfs-agent/VAPluginClass.cs:480 | the call is recorded, the PlaneState request becomes the one pending request and the connections are unchanged |
| SimAgent.Agent.CheckForMessage | msfs-agent/VAPluginClass.cs:482-486 | one poll: it is recorded and counted; it clears the pending request and stores the record exactly when the simulator delivers on this poll, and it fails when the simulator throws |
| SimAgent.Agent.GetWasmVariable | msfs-agent/VAPluginClass.cs:160 | the reading is the simulator's value for that scripting variable, and the call is recorded |
| SimAgent.Agent.Connect | msfs-agent/VAPluginClass.cs:417 | the call is recorded and SimConnect is connected exactly when the simulator accepts it; nothing else changes |
| SimAgent.Agent.AddDataDefinitions | msfs-agent/VAPluginClass.cs:422 | the call is recorded; the connections, the pending request and the record are unchanged |
| SimAgent.Agent.Disconnect | msfs-agent/VAPluginClass.cs:367 | the call is recorded and SimConnect is no longer connected; the WASM flag is unchanged |
| SimAgent.Agent.WASMConnect | msfs-agent/VAPluginClass.cs:443 | the call is recorded and the WASM server is connected exactly when it accepts; SimConnect is unchanged |
| SimAgent.Agent.WASMDisconnect | msfs-agent/VAPluginClass.cs:170 | the call is recorded and the WASM server is no longer connected; SimConnect is unchanged |
| SimAgent.Agent.TriggerEvent | msfs-agent/VAPluginClass.cs:215 | the event and its payload, with or without the event data, are recorded; the connections are unchanged |
| SimAgent.Agent.TriggerPMDG | msfs-agent/VAPluginClass.cs:190 | the PMDG event and the event data are recorded; the connections are unchanged |
| SimAgent.Agent.SetWasmVariable | msfs-agent/VAPluginClass.cs:138 | the write of the scripting variable with the event data is recorded; the connections are unchanged |
| Host.ToDecimal | msfs-agent/VAPluginClass.cs:162 | the `(decimal?)(double?)` cast succeeds exactly for finite values within the decimal range, and keeps the value |
| Host.TextOf | msfs-agent/VAPluginClass.cs:136 | GetText returns a value only when a text variable holds it, and returns the value of any text variable stored under the key |
| Host.BooleanOf | msfs-agent/VAPluginClass.cs:382 | GetBoolean returns a value only when a boolean variable holds it, and returns the value of any boolean variable stored under the key |
| Host.Proxy.SetText | msfs-agent/VAPluginClass.cs:504 | the variable becomes a text variable holding the value; every other variable and the log are unchanged |
| Host.Proxy.SetBoolean | msfs-agent/VAPluginClass.cs:502 | the variable becomes a boolean variable holding the value; every other variable and the log are unchanged |
| Host.Proxy.SetInt | msfs-agent/VAPluginClass.cs:506 | the variable becomes an int variable holding the value; every other variable and the log are unchanged |
| Host.Proxy.SetDecimal | msfs-agent/VAPluginClass.cs:508 | the variable becomes a decimal variable holding the value; every other variable and the log are unchanged |
| Host.Proxy.WriteToLog | msfs-agent/VAPluginClass.cs:140 | one line with its severity is appended to the log; the variables are unchanged |
| Router.Upper | msfs-agent/VAPluginClass.cs:200 | ToUpper keeps the length and upper-cases each character independently |
| Router.TableName | msfs-agent/VAPluginClass.cs:213-340 | definition of the 26 case labels of the table, in source order; RouterFacts.TableNamesHaveNoColon and RouterFacts.TableExample state facts about it |
| Router.InTable | msfs-agent/VAPluginClass.cs:213-340 | definition: a name is one of the table's case labels; RouterFacts.TableMatchIsCaseInsensitive states what it selects |
| Router.Lookup | msfs-agent/VAPluginClass.cs:207-359 | the switch on an upper-cased name gives a regular action carrying that name; RouterFacts.OtherNameLookup states the default case |
| Router.Classify | msfs-agent/VAPluginClass.cs:96-118 | definition of the if-chain that picks varKind and varAction; RouterFacts.ClassifyDecodes states that each action decodes back to its context |
| RouterFacts.UpperIdempotent | msfs-agent/VAPluginClass.cs:200 | upper-casing twice is upper-casing once |
| RouterFacts.ClassifyDecodes | msfs-agent/VAPluginClass.cs:96-118 | each action decodes back to its context: no context exactly for null or empty, a throw exactly for length 1, `"L:"+n+"-G"` for a read, `"L:"+n` (not ending in "-G") for a write, `"P:"+n` for PMDG, and a regular action exactly for the remaining contexts, looked up upper-cased |
| RouterFacts.ScriptGetContext | msfs-agent/VAPluginClass.cs:101-112 | `"L:"+n+"-G"` reads variable n, with the prefix and suffix stripped |
| RouterFacts.ScriptSetContext | msfs-agent/VAPluginClass.cs:101-112 | `"L:"+n` not ending in "-G" writes variable n |
| RouterFacts.ScriptEdgeCases | msfs-agent/VAPluginClass.cs:101-112 | "L:" writes the empty name; "L:-G" reads the empty name |
| RouterFacts.VendorContext | msfs-agent/VAPluginClass.cs:113-118 | `"P:"+n` sends PMDG event n |
| RouterFacts.RegularContext | msfs-agent/VAPluginClass.cs:101-118 | a context whose second character is not ':' takes the regular path, upper-cased |
| RouterFacts.LowerCasePrefixIsRegular | msfs-agent/VAPluginClass.cs:101-118 | the prefix checks are case-sensitive: "l:" and "p:" contexts take the regular path |
| RouterFacts.LowerCaseScriptIsUnknown | msfs-agent/VAPluginClass.cs:198-359 | when event names are identifiers, a lower-case "l:" context is an unknown context |
| RouterFacts.LowerCaseVendorIsUnknown | msfs-agent/VAPluginClass.cs:198-359 | when event names are identifiers, a lower-case "p:" context is an unknown context |
| RouterFacts.TableNamesHaveNoColon | msfs-agent/VAPluginClass.cs:213-340 | no table name could be mistaken for a prefixed context |
| RouterFacts.TableMatchIsCaseInsensitive | msfs-agent/VAPluginClass.cs:200-340 | any context whose upper-cased form is a table name sends that table event |
| RouterFacts.TableExample | msfs-agent/VAPluginClass.cs:293-295 | "xpndr_set" sends the table event XPNDR_SET |
| RouterFacts.SnapshotContextExactly | msfs-agent/VAPluginClass.cs:209-211 | a context takes the snapshot if and only if it upper-cases to GETPLANESTATE |
| RouterFacts.UnprefixedIsRegular | msfs-agent/VAPluginClass.cs:101-118 | a context of two or more characters without an "L:" or "P:" prefix is looked up upper-cased |
| RouterFacts.OtherNameLookup | msfs-agent/VAPluginClass.cs:344-359 | a name that is neither GETPLANESTATE nor a table label is sent without data when it is an EventTypes name, and is unknown otherwise |
| RouterFacts.KnownEventContext | msfs-agent/VAPluginClass.cs:344-353 | such a context whose upper-cased form is an EventTypes name is sent without data |
| RouterFacts.UnknownEventContext | msfs-agent/VAPluginClass.cs:354-359 | such a context whose upper-cased form is no EventTypes name is unknown |
| RouterFacts.DirectEventContext | msfs-agent/VAPluginClass.cs:344-359 | any context of two or more characters without an "L:" or "P:" prefix, whose upper-cased form is neither GETPLANESTATE nor a table name, is sent without data when Enum.Parse finds it among the EventTypes names, and is unknown otherwise |
| Publish.Convert | msfs-agent/VAPluginClass.cs:499-509 | a field's value is stored with the setter of its kind; only a double the decimal cast rejects cannot be stored |
| Publish.Key | msfs-agent/VAPluginClass.cs:502-508 | definition of a field's variable name, the "MSFSAgent.PlaneState." prefix and the field name; Publish.KeysDistinct and Publish.KeysArePrefixedNames state what it gives |
| Publish.ConvertReadsBack | msfs-agent/VAPluginClass.cs:499-509 | reading a stored variable back with the getter of its kind gives the field's value |
| Publish.FirstFailure | msfs-agent/VAPluginClass.cs:497-515 | the position where the loop stops: every field before it can be stored, and the field at it cannot |
| Publish.Published | msfs-agent/VAPluginClass.cs:497-515 | definition of the store after the first n writes of the loop; Publish.PublishedValues, Publish.PublishedLeavesOthers and Publish.PublishingKeepsControls state what it holds |
| Publish.KeysDistinct | msfs-agent/VAPluginClass.cs:499-509 | fields with distinct names are published under distinct keys |
| Publish.PublishedValues | msfs-agent/VAPluginClass.cs:497-509 | after n writes each of those fields holds its converted value and every other variable is unchanged |
| Publish.PublishedLeavesOthers | msfs-agent/VAPluginClass.cs:497-509 | a variable that is no written field's key keeps its presence and value |
| Publish.KeysArePrefixedNames | msfs-agent/VAPluginClass.cs:499-509 | a key is a plane-state key if and only if it is "MSFSAgent.PlaneState." followed by a declared field name |
| Publish.ControlKeysAreNotPublished | msfs-agent/VAPluginClass.cs:136 | no field is published under the DebugMode or EventData variable |
| Publish.PublishingKeepsControls | msfs-agent/VAPluginClass.cs:497-509 | publishing leaves the debug flag and the event data as they were |
| Publish.AltVariableAgrees | msfs-agent/VAPluginClass.cs:162 | the scripting-variable read writes the key of the last field, and both writers store a decimal there |
| Dispatch.DebugMode | msfs-agent/VAPluginClass.cs:379-387 | debug mode is on if and only if the flag is set to true; an absent flag means off |
| Dispatch.Polls | msfs-agent/VAPluginClass.cs:482-486 | n polls are n CheckForMessage calls |
| Dispatch.WaitPolls | msfs-agent/VAPluginClass.cs:482-486 | the wait polls up to and including the answering poll, or all fuel polls when there is no answer in time |
| Dispatch.PlaneData | msfs-agent/VAPluginClass.cs:464-519 | definition of GetPlaneData's calls, log, store and divergence; Plugin.GetPlaneData is proved to have exactly this effect |
| Dispatch.Fetch | msfs-agent/VAPluginClass.cs:477-515 | definition of the request, the wait and the publication; Plugin.FetchPlaneState is proved to have exactly this effect |
| Dispatch.Store | msfs-agent/VAPluginClass.cs:496-518 | definition of the publication and its final log line; Plugin.StorePlaneState has this effect and DispatchFacts.StorePublishes states what it stores |
| Dispatch.Run | msfs-agent/VAPluginClass.cs:87-374 | definition of the effect of VA_Invoke1; Plugin.Invoke is proved to have exactly this effect and the DispatchFacts lemmas state its properties |
| Dispatch.RunAction | msfs-agent/VAPluginClass.cs:120-371 | definition of the switch on varKind once the profile check has passed |
| Dispatch.ScriptSetRun | msfs-agent/VAPluginClass.cs:126-144 | definition of the "L" "Set" case; Plugin.ScriptSetPath has exactly this effect |
| Dispatch.ScriptGetRun | msfs-agent/VAPluginClass.cs:146-172 | definition of the "L" "Get" case, with the cast's throw before WASMDisconnect; Plugin.ScriptGetPath has exactly this effect |
| Dispatch.VendorRun | msfs-agent/VAPluginClass.cs:178-196 | definition of the "PMDG" case; Plugin.VendorPath has exactly this effect |
| Dispatch.RegularRun | msfs-agent/VAPluginClass.cs:198-206 | definition of the "Regular" case up to the switch; Plugin.RegularPath has exactly this effect |
| Dispatch.EventRun | msfs-agent/VAPluginClass.cs:207-367 | definition of the switch on the upper-cased context; Plugin.SwitchOnContext has exactly this effect |
| Plugin.SupportedProfile | msfs-agent/VAPluginClass.cs:392-408 | the profile is supported if and only if it has the "MSFS Agent" command; the store is unchanged and only the debug-mode line is logged |
| Plugin.ConnectToSim | msfs-agent/VAPluginClass.cs:413-436 | a new Agent is connected and has its data definitions added, or after a failed Connect it is disconnected, the error is logged and the result is null |
| Plugin.ConnectToWASM | msfs-agent/VAPluginClass.cs:439-459 | a new Agent is connected to WASM, or after a failure it is WASM-disconnected, the SimConnect error line is logged and the result is null |
| Plugin.PublishField | msfs-agent/VAPluginClass.cs:499-509 | one loop iteration writes the field's key with the setter of its kind, or stores nothing when the cast throws |
| Plugin.PublishFields | msfs-agent/VAPluginClass.cs:497-515 | the foreach writes the fields in order up to the first failure; it reports whether every field was written, and the debug flag is unchanged |
| Plugin.AwaitReply | msfs-agent/VAPluginClass.cs:482-486 | the wait makes exactly WaitPolls polls; it fails exactly when the simulator throws in time, and the request stops pending exactly when the record is delivered in time |
| Plugin.GetPlaneData | msfs-agent/VAPluginClass.cs:464-519 | GetPlaneData has exactly the calls, log and store of Dispatch.PlaneData, for a null, disconnected or connected agent |
| Plugin.FetchPlaneState | msfs-agent/VAPluginClass.cs:476-515 | the request, the wait and the publication have the effect Dispatch.Fetch gives |
| Plugin.StorePlaneState | msfs-agent/VAPluginClass.cs:497-518 | the publication and its final log line have the effect Dispatch.Store gives |
| Plugin.ScriptSetPath | msfs-agent/VAPluginClass.cs:126-144 | the "L" "Set" case has the effect Dispatch.ScriptSetRun gives |
| Plugin.ScriptGetPath | msfs-agent/VAPluginClass.cs:146-172 | the "L" "Get" case has the effect Dispatch.ScriptGetRun gives, including the throw before WASMDisconnect |
| Plugin.VendorPath | msfs-agent/VAPluginClass.cs:178-196 | the "PMDG" case has the effect Dispatch.VendorRun gives |
| Plugin.RegularPath | msfs-agent/VAPluginClass.cs:198-206 | the "Regular" case has the effect Dispatch.RegularRun gives |
| Plugin.SwitchOnContext | msfs-agent/VAPluginClass.cs:207-367 | the switch on the upper-cased context has the effect Dispatch.EventRun gives |
| Plugin.SnapshotCase | msfs-agent/VAPluginClass.cs:209-211 | the GETPLANESTATE case has the effect Dispatch.EventRun gives for the snapshot |
| Plugin.Invoke | msfs-agent/VAPluginClass.cs:87-374 | VA_Invoke1 has exactly the outcome, store, log and agent calls of Dispatch.Run, and creates no Agent when Run makes no calls |
| DispatchFacts.RunLeavesConnections | msfs-agent/VAPluginClass.cs:128-367 | an invocation uses at most one transport, and every connection it opens is closed, except when an exception escapes (WASM left open) or the snapshot wait is still polling |
| DispatchFacts.ActionConnections | msfs-agent/VAPluginClass.cs:120-367 | the connection facts hold for every path of the switch on varKind |
| DispatchFacts.PolledConnections | msfs-agent/VAPluginClass.cs:480-486 | after connecting, requesting and polling only SimConnect is open, and a disconnect closes it |
| DispatchFacts.SnapshotConnections | msfs-agent/VAPluginClass.cs:209-211 | the snapshot path never opens both transports, and closes every connection it opens unless the wait is still polling, when SimConnect stays open |
| DispatchFacts.ScriptSetConnections | msfs-agent/VAPluginClass.cs:126-144 | the scripting-variable write never opens both transports and closes every connection it opens |
| DispatchFacts.ScriptGetConnections | msfs-agent/VAPluginClass.cs:146-172 | the scripting-variable read never opens both transports and closes every connection it opens, except that a throwing cast leaves WASM open |
| DispatchFacts.VendorConnections | msfs-agent/VAPluginClass.cs:178-196 | the PMDG path never opens both transports and closes every connection it opens |
| DispatchFacts.EventConnections | msfs-agent/VAPluginClass.cs:213-359 | the table, EventTypes and unknown paths never open both transports and close every connection they open |
| DispatchFacts.RunWithoutWork | msfs-agent/VAPluginClass.cs:96-99 | nothing is done, and no connection opened, exactly for an unsupported profile or a null or empty context; only the profile line is logged |
| DispatchFacts.RunConnectionFailure | msfs-agent/VAPluginClass.cs:128-204 | a failed connect is exactly a transport that is down; it closes the connection, logs the error and changes nothing |
| DispatchFacts.RunReportsContext | msfs-agent/VAPluginClass.cs:140-367 | "Context processed" is logged with the action's name as the last line exactly on the processed paths other than the read, and on no other path |
| DispatchFacts.ScriptSetReports | msfs-agent/VAPluginClass.cs:140 | a processed scripting-variable write ends with "Context processed" under its name and has no other such line; any other outcome has none |
| DispatchFacts.VendorReports | msfs-agent/VAPluginClass.cs:192 | a processed PMDG event ends with "Context processed" under its name and has no other such line; any other outcome has none |
| DispatchFacts.EventReports | msfs-agent/VAPluginClass.cs:207-367 | a processed case of the switch ends with "Context processed" under the upper-cased context and has no other such line; any other outcome has none |
| DispatchFacts.RegularReports | msfs-agent/VAPluginClass.cs:198-367 | the same for the whole regular path, its connection and processing lines included |
| DispatchFacts.ActionReports | msfs-agent/VAPluginClass.cs:120-371 | the same for every path of the switch on varKind, the read having no such line |
| DispatchFacts.RunChangesOnlyPlaneState | msfs-agent/VAPluginClass.cs:87-374 | an invocation changes only plane-state variables and leaves the debug flag and the event data unchanged |
| DispatchFacts.StoreChangesOnlyPlaneState | msfs-agent/VAPluginClass.cs:497-509 | the publication changes only plane-state variables |
| DispatchFacts.StoreLeavesOthers | msfs-agent/VAPluginClass.cs:497-518 | a variable that is no field's key is untouched by the publication, and the publication reports no processed context |
| DispatchFacts.SnapshotVars | msfs-agent/VAPluginClass.cs:209-211 | the snapshot changes only plane-state variables |
| DispatchFacts.ScriptGetVars | msfs-agent/VAPluginClass.cs:162 | the scripting-variable read changes only plane-state variables |
| DispatchFacts.OtherPathsKeepVars | msfs-agent/VAPluginClass.cs:126-367 | every path but the snapshot and the read leaves the store unchanged |
| DispatchFacts.ActionVars | msfs-agent/VAPluginClass.cs:120-371 | every path of the switch on varKind changes only plane-state variables |
| DispatchFacts.ControlsSurvive | msfs-agent/VAPluginClass.cs:136 | a store in which only plane-state variables changed has the same debug flag and event data |
| DispatchFacts.RunDivergesOnlyWaiting | msfs-agent/VAPluginClass.cs:480-486 | an invocation runs out of fuel exactly for a snapshot whose record has not arrived in time, after one request and fuel polls |
| DispatchFacts.SilentSimulatorDiverges | msfs-agent/VAPluginClass.cs:482-486 | a simulator that never answers keeps the wait loop polling for any fuel |
| DispatchFacts.RunThrowsExactly | msfs-agent/VAPluginClass.cs:101-162 | an exception escapes exactly for a one-character context or a scripting-variable reading the decimal cast rejects |
| DispatchFacts.SnapshotCalls | msfs-agent/VAPluginClass.cs:480-486 | the snapshot connects, adds definitions, requests the record once and polls; it then disconnects unless it is still waiting |
| DispatchFacts.SnapshotLog | msfs-agent/VAPluginClass.cs:365-367 | the snapshot, whatever GetPlaneData met, ends with "Context processed" unless it is still waiting |
| DispatchFacts.StorePublishes | msfs-agent/VAPluginClass.cs:497-515 | each field before the first failure reads back as its value, and the failure line appears exactly when a field failed |
| DispatchFacts.FetchStores | msfs-agent/VAPluginClass.cs:477-515 | with a record delivered in time, the fetch does not diverge and has the store and log of the publication |
| DispatchFacts.SnapshotEventStores | msfs-agent/VAPluginClass.cs:209-211 | the snapshot over a live connection with a delivered record logs the publication, then the report |
| DispatchFacts.SnapshotStores | msfs-agent/VAPluginClass.cs:209-211 | GETPLANESTATE with a record delivered in time is processed, with the publication's store and its failure line |
| DispatchFacts.SnapshotPublishesRecord | msfs-agent/VAPluginClass.cs:496-515 | a record delivered in time is published: every field before the first failure reads back as its value under its key, and the failure line appears exactly when a field failed |
| DispatchFacts.SnapshotWaitFails | msfs-agent/VAPluginClass.cs:489-493 | over a live connection, a wait that throws logs the error, then the report, and disconnects |
| DispatchFacts.RegularRunShape | msfs-agent/VAPluginClass.cs:198-206 | a regular context with SimConnect up logs the profile, connection and processing lines, then the switch's effect, and makes the connection calls before it |
| DispatchFacts.WaitFailureStillProcessed | msfs-agent/VAPluginClass.cs:489-493 | when the wait throws, nothing is published, the failure is logged, and the context is still processed and disconnected |
| DispatchFacts.ScriptReadStoresReading | msfs-agent/VAPluginClass.cs:146-172 | a reading the cast accepts is stored under Alt_Variable, reads back as the reading and the connection is closed; one it rejects throws with WASM open and nothing stored |
| DispatchFacts.EventsAreSent | msfs-agent/VAPluginClass.cs:213-359 | a table event is sent with the event data and an EventTypes name without it, each followed by a disconnect; an unknown name logs the error, sends nothing and disconnects |
| DispatchFacts.PayloadPathsSendEventData | msfs-agent/VAPluginClass.cs:126-196 | a scripting-variable write and a PMDG event carry the event data over their own transport, then close it |
| DispatchFacts.PollsKeepConnections | msfs-agent/VAPluginClass.cs:482-486 | polling does not open or close a connection |
| DispatchFacts.ScriptReadLeavesWasmOpen | msfs-agent/VAPluginClass.cs:160-170 | with the WASM server up and a NaN reading, the read throws with the WASM connection open |
| DispatchFacts.ScriptGetRunClosing | msfs-agent/VAPluginClass.cs:146-172 | definition of the corrected read, which catches the failed cast, logs it and calls WASMDisconnect; DispatchFacts.ScriptGetClosingCloses states what it gives |
| DispatchFacts.ScriptGetClosingCloses | msfs-agent/VAPluginClass.cs:146-172 | the corrected read, which catches the failed cast, never throws, closes every connection, stores the same variables, fails exactly for a reading the cast rejects, and otherwise equals the read as written |

## Left out

- The plugin metadata and lifecycle hooks (`VA_DisplayName`, `VA_DisplayInfo`, `VA_Id`, `VA_StopCommand`, `VA_Init1`, `VA_Exit1`): host plumbing with no logic.
- The Agent's internals: the Agent class is not part of this model. Its SimConnect and WASimCommander transports, `AddDataDefinitions`, `TriggerEvent`, `TriggerPMDG` and `TriggerWASM` are foreign code. Each is modelled as a recorded call. The simulator's answers come from the `Sim` parameter.
- Exceptions thrown by foreign calls are not modelled: Connect, the Trigger calls and the host setters are taken to return normally. The exceptions that are modelled are these:
  - `Substring(0, 2)` on a one-character context;
  - the decimal cast of a double;
  - a throwing poll during the wait.
- `Thread.Sleep(10)` and wall-clock time.
- Plugin.AwaitReply: the source's wait loop has no bound and never ends while the simulator stays silent. The model bounds it by `fuel` polls and reports the outcome Diverged when they run out. Termination of the source loop is not claimed.
- Host.ToDecimal: the double→decimal cast is modelled by its range only: it throws for NaN, infinities and magnitudes above 2^96 - 1. The conversion's rounding is not modelled. .NET rounds the double to 15 significant decimal digits, and magnitudes below about 2^-95 become 0. The model takes a stored decimal to be the double's exact real value.
- Router.Upper: `ToUpper` is modelled for the ASCII letters only. Culture-specific and non-ASCII case mapping is not.
- Router.Lookup: `Enum.Parse` is modelled as exact membership of the upper-cased context in the set of `EventTypes` names, which is a parameter. Its acceptance of numeric values, comma-separated lists and surrounding whitespace is not modelled. The `EventTypes` enum itself is not part of this model.
- Host.Proxy: VoiceAttack keeps one variable store per type. The model keeps a single map from name to typed value, which differs only if two variables of different types share a name.
- Log wording and colours: only which line was written and its severity are kept. The exception messages interpolated into the two GetPlaneData failure lines are dropped.
- `dynamic` proxy dispatch and reflection: replaced by the `Proxy` class and the static schema.
- Schema.PlaneStateFields: the schema fixes the fields in declaration order. `Type.GetFields()` does not promise any order, so the publication order of the source is the order the runtime returns, which the model takes to be declaration order.

## Findings

| source | as written | input that shows it | evidently intended | confidence | as-written member | corrected member |
|---|---|---|---|---|---|---|
| msfs-agent/VAPluginClass.cs:160-170 | after `WASMConnect`, the `(decimal?)(double?)` cast of the reading at line 162 throws out of `VA_Invoke1`, so the `WASMDisconnect` at line 170 never runs | context "L:X-G", the WASM server up, the scripting variable X reading NaN | the failed read is caught, logged, and the WASM connection closed | not executed | DispatchFacts.ScriptReadLeavesWasmOpen | DispatchFacts.ScriptGetClosingCloses |

The model of `VA_Invoke1` (`Dispatch.ScriptGetRun`, `Plugin.ScriptGetPath`) keeps the code as written. `DispatchFacts.RunLeavesConnections` proves that a connection is left open only when an exception escapes or the wait is still polling. `DispatchFacts.RunThrowsExactly` proves that the only exception escaping after a connection was made is this cast. `DispatchFacts.ScriptGetRunClosing` is the read with the cast's failure caught: it logs one error line (`ReadNotStored`, a line of the model's own, since the source writes none) and calls `WASMDisconnect`. `DispatchFacts.ScriptGetClosingCloses` proves that it never throws and always ends with both connections closed, and that it behaves like the read as written whenever the cast succeeds.
