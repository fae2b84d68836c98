/** Turning a PlaneState record into VoiceAttack variables: one variable per
    declared field, named "MSFSAgent.PlaneState." + the field's name, set
    with the setter of the field's type. */
module Publish {
  import opened Wrappers
  import opened Schema
  import opened Host

  /** VARIABLE_NAMESPACE */
  const Namespace: string := "MSFSAgent"
  const PlaneStatePrefix: string := Namespace + ".PlaneState."
  const EventDataKey: string := Namespace + ".EventData"
  const DebugKey: string := Namespace + ".DebugMode"
  /** The variable the scripting-variable read writes its reading to. */
  const AltVariableKey: string := Namespace + ".PlaneState.Alt_Variable"

  /** The variable a field is published under. */
  function Key(f: Field): string
  {
    PlaneStatePrefix + f.name
  }

  /** The value the loop stores for a field of the given kind: the raw value
      through the setter of its type; None when the cast throws, which only
      the decimal conversion of a double can do. */
  function Convert(kind: FieldKind, v: FieldValue): (r: Option<HostValue>)
    requires Fits(v, kind)
    ensures r.None? <==> kind == DoubleField && ToDecimal(v.d).None?
  {
    match kind
    case BooleanField => Some(BoolVar(Some(v.b)))
    case TextField(_) => Some(TextVar(Some(v.t)))
    case Int32Field => Some(IntVar(Some(v.i)))
    case DoubleField =>
      match ToDecimal(v.d)
      case Some(x) => Some(DecimalVar(Some(x)))
      case None => None
  }

  /** What reading the variable back with the getter of the field's type
      gives, as a field value. */
  function ReadBack(kind: FieldKind, h: HostValue): Option<FieldValue>
  {
    match (kind, h)
    case (BooleanField, BoolVar(Some(b))) => Some(BoolValue(b))
    case (TextField(_), TextVar(Some(t))) => Some(TextValue(t))
    case (Int32Field, IntVar(Some(i))) => Some(IntValue(i))
    case (DoubleField, DecimalVar(Some(x))) => Some(DoubleValue(Finite(x)))
    case _ => None
  }

  /** A stored variable reads back as the field's value: exactly for
      booleans, text and integers, and for a double as its numeric value. */
  lemma ConvertReadsBack(kind: FieldKind, v: FieldValue)
    requires Fits(v, kind) && Convert(kind, v).Some?
    ensures ReadBack(kind, Convert(kind, v).value) == Some(v)
  {
  }

  /** The first field from `from` on whose value cannot be stored, or
      |fields| when every one can. */
  function FirstFailure(fields: seq<Field>, state: seq<FieldValue>, from: nat): (j: nat)
    requires IsRecord(fields, state) && from <= |fields|
    decreases |fields| - from
    ensures from <= j <= |fields|
    ensures forall i :: from <= i < j ==> Convert(fields[i].kind, state[i]).Some?
    ensures j < |fields| ==> Convert(fields[j].kind, state[j]).None?
  {
    if from == |fields| then |fields|
    else if Convert(fields[from].kind, state[from]).None? then from
    else FirstFailure(fields, state, from + 1)
  }

  /** The store after the loop has written the first n fields. */
  function Published(vars: map<string, HostValue>, fields: seq<Field>, state: seq<FieldValue>, n: nat)
    : map<string, HostValue>
    requires IsRecord(fields, state) && n <= |fields|
    requires forall i :: 0 <= i < n ==> Convert(fields[i].kind, state[i]).Some?
  {
    if n == 0 then vars
    else Published(vars, fields, state, n - 1)[Key(fields[n - 1]) := Convert(fields[n - 1].kind, state[n - 1]).value]
  }

  /** Fields with distinct names are published under distinct variables. */
  lemma KeysDistinct(f: Field, g: Field)
    requires f.name != g.name
    ensures Key(f) != Key(g)
  {
    assert Key(f)[|PlaneStatePrefix|..] == f.name;
    assert Key(g)[|PlaneStatePrefix|..] == g.name;
  }

  /** After the first n fields are written, each of them reads back as its
      converted value and every other variable is as it was. */
  lemma {:induction false} PublishedValues(vars: map<string, HostValue>, fields: seq<Field>,
                                           state: seq<FieldValue>, n: nat)
    requires IsRecord(fields, state) && DistinctNames(fields) && n <= |fields|
    requires forall i :: 0 <= i < n ==> Convert(fields[i].kind, state[i]).Some?
    ensures forall i :: 0 <= i < n ==>
      Key(fields[i]) in Published(vars, fields, state, n) &&
      Published(vars, fields, state, n)[Key(fields[i])] == Convert(fields[i].kind, state[i]).value
    ensures forall k :: (forall i :: 0 <= i < n ==> k != Key(fields[i])) ==>
      (k in Published(vars, fields, state, n) <==> k in vars) &&
      (k in vars ==> Published(vars, fields, state, n)[k] == vars[k])
  {
    if n > 0 {
      PublishedValues(vars, fields, state, n - 1);
      forall i | 0 <= i < n - 1
        ensures Key(fields[i]) != Key(fields[n - 1])
      {
        KeysDistinct(fields[i], fields[n - 1]);
      }
    }
  }

  /** A variable no field of the prefix is published under keeps its value
      (distinct names are not needed for this half). */
  lemma {:induction false} PublishedLeavesOthers(vars: map<string, HostValue>, fields: seq<Field>,
                                                 state: seq<FieldValue>, n: nat, k: string)
    requires IsRecord(fields, state) && n <= |fields|
    requires forall i :: 0 <= i < n ==> Convert(fields[i].kind, state[i]).Some?
    requires forall i :: 0 <= i < n ==> k != Key(fields[i])
    ensures k in Published(vars, fields, state, n) <==> k in vars
    ensures k in vars ==> Published(vars, fields, state, n)[k] == vars[k]
  {
    if n > 0 {
      PublishedLeavesOthers(vars, fields, state, n - 1, k);
    }
  }

  /** The published variables are exactly the prefixed field names, one per
      field: a variable is a plane-state key if and only if it is the key of
      a field. */
  lemma KeysArePrefixedNames(k: string)
    ensures (exists i :: 0 <= i < FieldCount && k == Key(FieldAt(i))) <==>
      (|k| >= |PlaneStatePrefix| && k[..|PlaneStatePrefix|] == PlaneStatePrefix &&
       FieldIndex(k[|PlaneStatePrefix|..]).Some?)
  {
    var p := PlaneStatePrefix;
    if exists i :: 0 <= i < FieldCount && k == Key(FieldAt(i)) {
      var i :| 0 <= i < FieldCount && k == Key(FieldAt(i));
      assert k[|p|..] == FieldAt(i).name;
      FieldIndexInverse();
    }
    if |k| >= |p| && k[..|p|] == p && FieldIndex(k[|p|..]).Some? {
      var i := FieldIndex(k[|p|..]).value;
      assert k == p + k[|p|..];
      assert k == Key(FieldAt(i));
    }
  }

  /** The debug flag and the event payload are not plane-state variables, so
      publishing never changes them. */
  lemma ControlKeysAreNotPublished(f: Field)
    ensures Key(f) != DebugKey && Key(f) != EventDataKey
  {
    assert Key(f)[10] == 'P';
    assert DebugKey[10] == 'D' && EventDataKey[10] == 'E';
  }

  /** Publishing any prefix of the fields leaves the debug flag and the
      event payload as they were. */
  lemma PublishingKeepsControls(vars: map<string, HostValue>, fields: seq<Field>, state: seq<FieldValue>, n: nat)
    requires IsRecord(fields, state) && DistinctNames(fields) && n <= |fields|
    requires forall i :: 0 <= i < n ==> Convert(fields[i].kind, state[i]).Some?
    ensures BooleanOf(Published(vars, fields, state, n), DebugKey) == BooleanOf(vars, DebugKey)
    ensures TextOf(Published(vars, fields, state, n), EventDataKey) == TextOf(vars, EventDataKey)
  {
    PublishedValues(vars, fields, state, n);
    forall i | 0 <= i < n
      ensures Key(fields[i]) != DebugKey && Key(fields[i]) != EventDataKey
    {
      ControlKeysAreNotPublished(fields[i]);
    }
  }

  /** The scripting-variable read writes the variable the last field,
      Alt_Variable, is published under, and both store a decimal there: the
      two writers agree on its type. */
  lemma AltVariableAgrees(v: FieldValue, reading: Double)
    requires Fits(v, FieldAt(FieldCount - 1).kind)
    ensures AltVariableKey == Key(FieldAt(FieldCount - 1))
    ensures FieldAt(FieldCount - 1).kind == DoubleField
    ensures Convert(FieldAt(FieldCount - 1).kind, v).Some? ==>
      Convert(FieldAt(FieldCount - 1).kind, v).value.DecimalVar?
    ensures ToDecimal(reading).Some? && v == DoubleValue(reading) ==>
      Convert(FieldAt(FieldCount - 1).kind, v) == Some(DecimalVar(ToDecimal(reading)))
  {
    AltVariableIsLastAndDouble();
    assert PlaneStatePrefix + "Alt_Variable" == AltVariableKey;
  }
}
