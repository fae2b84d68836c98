/** How VA_Invoke1 reads its command context: the `L:` and `P:` prefixes
    select the WASM and PMDG paths on the raw text, and every other context
    is upper-cased and looked up in the fixed table, then among the event
    names of the agent's EventTypes enumeration. */
module Router {
  import opened Wrappers

  /** The number of contexts of the switch that trigger their event with the
      MSFSAgent.EventData payload. */
  const TableSize: nat := 26

  /** The table contexts in the order of the switch. */
  function TableName(i: nat): string
    requires i < TableSize
  {
    match i
    case 0 => "ADF_COMPLETE_SET"
    case 1 => "ADF2_COMPLETE_SET"
    case 2 => "AP_ALT_VAR_SET_ENGLISH"
    case 3 => "AP_NAV_SELECT_SET"
    case 4 => "AP_SPD_VAR_SET"
    case 5 => "AP_VS_VAR_SET_ENGLISH"
    case 6 => "BLEED_AIR_SOURCE_CONTROL_SET"
    case 7 => "COM_RADIO_SET"
    case 8 => "COM_STBY_RADIO_SET"
    case 9 => "COM2_RADIO_SET"
    case 10 => "COM2_STBY_RADIO_SET"
    case 11 => "HEADING_BUG_SET"
    case 12 => "NAV1_RADIO_SET"
    case 13 => "NAV1_STBY_SET"
    case 14 => "NAV2_RADIO_SET"
    case 15 => "NAV2_STBY_SET"
    case 16 => "XPNDR_SET"
    case 17 => "FLAPS_SET"
    case 18 => "SPOILERS_ARM_SET"
    case 19 => "AP_MAX_BANK_SET"
    case 20 => "FUELSYSTEM_PUMP_TOGGLE"
    case 21 => "ELECTRICAL_CIRCUIT_TOGGLE"
    case 22 => "TURBINE_IGNITION_SWITCH_SET1"
    case 23 => "TURBINE_IGNITION_SWITCH_SET2"
    case 24 => "FUELSYSTEM_VALVE_OPEN"
    case _ => "FUELSYSTEM_VALVE_CLOSE"
  }

  /** The context that asks for a plane-state snapshot. */
  const SnapshotContext: string := "GETPLANESTATE"

  /** What the plugin does with a context. */
  datatype Action =
    | NoContext                  // null or empty: nothing happens
    | TooShort                   // one character: Substring(0, 2) throws
    | ScriptGet(name: string)    // "L:" + name + "-G": read a scripting variable
    | ScriptSet(name: string)    // "L:" + name: set a scripting variable
    | VendorEvent(name: string)  // "P:" + name: PMDG event
    | Snapshot                   // GETPLANESTATE
    | TableEvent(event: string)  // a table event, with payload
    | DirectEvent(event: string) // another EventTypes member, no payload
    | Unknown(event: string)     // not an event name

  predicate IsRegular(a: Action)
  {
    a.Snapshot? || a.TableEvent? || a.DirectEvent? || a.Unknown?
  }

  /** The upper-cased context a regular action was chosen for. */
  function RegularName(a: Action): string
    requires IsRegular(a)
  {
    if a.Snapshot? then SnapshotContext else a.event
  }

  /** Substring(0, 2) == "L:" */
  predicate StartsWithL(s: string)
  {
    |s| >= 2 && s[0] == 'L' && s[1] == ':'
  }

  /** Substring(0, 2) == "P:" */
  predicate StartsWithP(s: string)
  {
    |s| >= 2 && s[0] == 'P' && s[1] == ':'
  }

  /** Substring(Length - 2) == "-G" */
  predicate EndsWithGet(s: string)
  {
    |s| >= 2 && s[|s| - 2] == '-' && s[|s| - 1] == 'G'
  }

  /** String.ToUpper for the ASCII letters. */
  function UpperChar(c: char): (u: char)
    ensures 'a' <= c <= 'z' ==> u as int == c as int - 32
    ensures !('a' <= c <= 'z') ==> u == c
  {
    if 'a' <= c <= 'z' then (c as int - 32) as char else c
  }

  function Upper(s: string): (u: string)
    ensures |u| == |s|
    ensures forall i :: 0 <= i < |s| ==> u[i] == UpperChar(s[i])
  {
    if s == [] then [] else [UpperChar(s[0])] + Upper(s[1..])
  }

  /** u labels one of the table's cases. */
  predicate InTable(u: string)
  {
    exists i :: 0 <= i < TableSize && TableName(i) == u
  }

  /** The switch on an upper-cased context, then Enum.Parse. */
  function Lookup(u: string, eventTypes: set<string>): (a: Action)
    ensures IsRegular(a) && RegularName(a) == u
  {
    if u == SnapshotContext then Snapshot
    else if InTable(u) then TableEvent(u)
    else if u in eventTypes then DirectEvent(u)
    else Unknown(u)
  }

  /** VA_Invoke1's choice of path for a context. */
  function Classify(context: Option<string>, eventTypes: set<string>): Action
  {
    if context.None? || context.value == "" then NoContext
    else
      var c := context.value;
      if |c| < 2 then TooShort
      else if StartsWithL(c) then
        if EndsWithGet(c) then ScriptGet(c[2..|c| - 2]) else ScriptSet(c[2..])
      else if StartsWithP(c) then VendorEvent(c[2..])
      else Lookup(Upper(c), eventTypes)
  }
}

/** What the classification promises: each action is read back to the
    context it came from, and each documented form of context gets its
    action. */
module RouterFacts {
  import opened Wrappers
  import opened Router

  /** Reading an action back gives the context it came from: the name of a
      scripting or vendor action is the context with its prefix (and "-G")
      removed, the empty and the one-character contexts are told apart, and
      everything else is a regular context looked up by its upper-cased
      text. */
  lemma ClassifyDecodes(context: Option<string>, eventTypes: set<string>)
    ensures var a := Classify(context, eventTypes);
      && (a == NoContext <==> context.None? || context.value == "")
      && (a == TooShort <==> context.Some? && |context.value| == 1)
      && (a.ScriptGet? ==> context == Some("L:" + a.name + "-G"))
      && (a.ScriptSet? ==> context == Some("L:" + a.name) && !EndsWithGet(context.value))
      && (a.VendorEvent? ==> context == Some("P:" + a.name))
      && (IsRegular(a) <==>
           context.Some? && |context.value| >= 2 &&
           !StartsWithL(context.value) && !StartsWithP(context.value))
      && (IsRegular(a) ==> a == Lookup(Upper(context.value), eventTypes))
  {
    var a := Classify(context, eventTypes);
    if a.ScriptGet? || a.ScriptSet? || a.VendorEvent? {
      var c := context.value;
      if a.ScriptGet? {
        assert c == "L:" + c[2..|c| - 2] + "-G";
      } else if a.ScriptSet? {
        assert c == "L:" + c[2..];
      } else {
        assert c == "P:" + c[2..];
      }
    }
  }

  /** A regular context: neither prefix, so the upper-cased text decides. */
  lemma RegularContext(c: string, eventTypes: set<string>)
    requires |c| >= 2 && c[1] != ':'
    ensures Classify(Some(c), eventTypes) == Lookup(Upper(c), eventTypes)
  {
    assert !StartsWithL(c) && !StartsWithP(c);
  }

  /** A context "L:" + n + "-G" reads variable n: both the prefix and the
      suffix are stripped. */
  lemma ScriptGetContext(n: string, eventTypes: set<string>)
    ensures Classify(Some("L:" + n + "-G"), eventTypes) == ScriptGet(n)
  {
    var c := "L:" + n + "-G";
    assert c[2..|c| - 2] == n;
  }

  /** A context "L:" + n that does not end in "-G" sets variable n. */
  lemma ScriptSetContext(n: string, eventTypes: set<string>)
    requires !EndsWithGet("L:" + n)
    ensures Classify(Some("L:" + n), eventTypes) == ScriptSet(n)
  {
    var c := "L:" + n;
    assert c[2..] == n;
  }

  /** The edge cases: "L:" sets the empty name, "L:-G" reads it. */
  lemma ScriptEdgeCases(eventTypes: set<string>)
    ensures Classify(Some("L:"), eventTypes) == ScriptSet("")
    ensures Classify(Some("L:-G"), eventTypes) == ScriptGet("")
  {
    ScriptSetContext("", eventTypes);
    ScriptGetContext("", eventTypes);
  }

  /** A context "P:" + n is the PMDG event n, whatever n is: the "L:" and
      "P:" tests exclude each other. */
  lemma VendorContext(n: string, eventTypes: set<string>)
    ensures Classify(Some("P:" + n), eventTypes) == VendorEvent(n)
  {
    var c := "P:" + n;
    assert c[2..] == n;
  }

  lemma UpperCharColon(c: char)
    ensures UpperChar(c) == ':' <==> c == ':'
  {
  }

  /** Lower-case prefixes are not recognised: "l:" + n and "p:" + n are
      regular contexts, looked up by their upper-cased text. */
  lemma LowerCasePrefixIsRegular(c: string, eventTypes: set<string>)
    requires |c| >= 2 && (c[0] == 'l' || c[0] == 'p') && c[1] == ':'
    ensures Classify(Some(c), eventTypes) == Lookup(Upper(c), eventTypes)
  {
    assert !StartsWithL(c) && !StartsWithP(c);
  }

  /** Enum member names are identifiers, so they never contain ':'. */
  predicate IdentifierNames(eventTypes: set<string>)
  {
    forall e :: e in eventTypes ==> ':' !in e
  }

  /** Every table name has a letter or a digit in second place. */
  lemma TableNamesHaveNoColon()
    ensures forall i :: 0 <= i < TableSize ==> |TableName(i)| >= 2 && TableName(i)[1] != ':'
  {
  }

  /** ... so "l:" + n is an unknown context even when n names an event. */
  lemma LowerCaseScriptIsUnknown(n: string, eventTypes: set<string>)
    requires IdentifierNames(eventTypes)
    ensures Classify(Some("l:" + n), eventTypes) == Unknown(Upper("l:" + n))
  {
    var c := "l:" + n;
    LowerCasePrefixIsRegular(c, eventTypes);
    var u := Upper(c);
    assert u[1] == ':';
    TableNamesHaveNoColon();
    assert u != SnapshotContext && !InTable(u) && u !in eventTypes;
  }

  /** ... and so is "p:" + n: lower-case prefixes are not PMDG events. */
  lemma LowerCaseVendorIsUnknown(n: string, eventTypes: set<string>)
    requires IdentifierNames(eventTypes)
    ensures Classify(Some("p:" + n), eventTypes) == Unknown(Upper("p:" + n))
  {
    var c := "p:" + n;
    LowerCasePrefixIsRegular(c, eventTypes);
    var u := Upper(c);
    assert u[1] == ':';
    TableNamesHaveNoColon();
    assert u != SnapshotContext && !InTable(u) && u !in eventTypes;
  }

  /** A regular context is looked up by its upper-cased text, so any casing
      of a table name triggers that table event. */
  lemma TableMatchIsCaseInsensitive(c: string, eventTypes: set<string>)
    requires InTable(Upper(c))
    ensures Classify(Some(c), eventTypes) == TableEvent(Upper(c))
  {
    TableNamesHaveNoColon();
    var u := Upper(c);
    var i :| 0 <= i < TableSize && TableName(i) == u;
    assert |u| >= 2 && u[1] != ':';
    UpperCharColon(c[1]);
    RegularContext(c, eventTypes);
  }

  /** GETPLANESTATE in any casing, and nothing else, asks for a snapshot. */
  lemma SnapshotContextExactly(c: string, eventTypes: set<string>)
    ensures Classify(Some(c), eventTypes) == Snapshot <==> Upper(c) == SnapshotContext
  {
    ClassifyDecodes(Some(c), eventTypes);
    if Upper(c) == SnapshotContext {
      assert Upper(c)[1] == 'E';
      RegularContext(c, eventTypes);
    }
  }

  /** A context of two or more characters without either prefix is looked
      up by its upper-cased text. */
  lemma UnprefixedIsRegular(c: string, eventTypes: set<string>)
    requires |c| >= 2 && !StartsWithL(c) && !StartsWithP(c)
    ensures Classify(Some(c), eventTypes) == Lookup(Upper(c), eventTypes)
  {
    ClassifyDecodes(Some(c), eventTypes);
  }

  /** The default case of the switch: Enum.Parse decides. */
  lemma OtherNameLookup(u: string, eventTypes: set<string>)
    requires u != SnapshotContext && !InTable(u)
    ensures u in eventTypes ==> Lookup(u, eventTypes) == DirectEvent(u)
    ensures u !in eventTypes ==> Lookup(u, eventTypes) == Unknown(u)
  {
  }

  /** The EventTypes half of DirectEventContext. */
  lemma KnownEventContext(c: string, eventTypes: set<string>)
    requires |c| >= 2 && !StartsWithL(c) && !StartsWithP(c)
    requires Upper(c) != SnapshotContext && !InTable(Upper(c)) && Upper(c) in eventTypes
    ensures Classify(Some(c), eventTypes) == DirectEvent(Upper(c))
  {
    UnprefixedIsRegular(c, eventTypes);
    OtherNameLookup(Upper(c), eventTypes);
  }

  /** The half of DirectEventContext where Enum.Parse fails. */
  lemma UnknownEventContext(c: string, eventTypes: set<string>)
    requires |c| >= 2 && !StartsWithL(c) && !StartsWithP(c)
    requires Upper(c) != SnapshotContext && !InTable(Upper(c)) && Upper(c) !in eventTypes
    ensures Classify(Some(c), eventTypes) == Unknown(Upper(c))
  {
    UnprefixedIsRegular(c, eventTypes);
    OtherNameLookup(Upper(c), eventTypes);
  }

  /** An upper-cased context that is neither the snapshot nor a table name
      fires its event without payload exactly when it names an EventTypes
      member, and is unknown otherwise. */
  lemma DirectEventContext(c: string, eventTypes: set<string>)
    requires |c| >= 2 && !StartsWithL(c) && !StartsWithP(c)
    requires Upper(c) != SnapshotContext && !InTable(Upper(c))
    ensures Upper(c) in eventTypes ==> Classify(Some(c), eventTypes) == DirectEvent(Upper(c))
    ensures Upper(c) !in eventTypes ==> Classify(Some(c), eventTypes) == Unknown(Upper(c))
  {
    if Upper(c) in eventTypes {
      KnownEventContext(c, eventTypes);
    } else {
      UnknownEventContext(c, eventTypes);
    }
  }

  /** A documented use: a lower-case table name. */
  lemma TableExample(eventTypes: set<string>)
    ensures Classify(Some("xpndr_set"), eventTypes) == TableEvent("XPNDR_SET")
  {
    assert Upper("xpndr_set") == "XPNDR_SET";
    assert TableName(16) == "XPNDR_SET";
    TableMatchIsCaseInsensitive("xpndr_set", eventTypes);
  }

  /** Upper-casing is idempotent, so the name a regular action carries is
      itself in upper case. */
  lemma {:induction false} UpperIdempotent(s: string)
    ensures Upper(Upper(s)) == Upper(s)
  {
    if s != [] {
      UpperIdempotent(s[1..]);
    }
  }
}
