/** The PlaneState data definition (DataRequests.cs): the request and
    definition identifiers and the field-by-field layout of the record the
    simulator fills in. The record is a wire format shared with SimConnect,
    so the order, names, kinds and sizes below are fixed. */
module Schema {
  import opened Wrappers

  /** RequestTypes: the kinds of data request the agent makes. */
  datatype RequestType = PlaneStateRequest

  /** DataDefinitions: the data definitions registered with SimConnect. */
  datatype DataDefinition = PlaneStateDefinition

  /** The CLR type of a field together with its marshalling: `int` is a
      32-bit integer, `bool` a 4-byte Win32 BOOL, `double` a 64-bit float and
      `string` a by-value ANSI text buffer of `size` bytes (ByValTStr). */
  datatype FieldKind = Int32Field | BooleanField | DoubleField | TextField(size: nat)

  datatype Field = Field(name: string, kind: FieldKind)

  const FieldCount: nat := 104

  /** The fields of PlaneState in declaration order (DataRequests.cs, lines 41-148):
      the order, names and kinds of the SimConnect data definition. */
  function FieldAt(i: nat): Field
    requires i < FieldCount
  {
    if i < 8 then
      match i
      case 0 => Field("Airspeed_Indicated", Int32Field)
      case 1 => Field("Ambient_Temperature", Int32Field)
      case 2 => Field("Apu_Switch", BooleanField)
      case 3 => Field("Apu_Generator_Switch", BooleanField)
      case 4 => Field("Apu_Pct_Rpm", DoubleField)
      case 5 => Field("Atc_Airline", TextField(256))
      case 6 => Field("Atc_Flight_Number", TextField(256))
      case _ => Field("Atc_Id", TextField(256))
    else if i < 16 then
      match i
      case 8 => Field("Auto_Brake_Switch_CB", DoubleField)
      case 9 => Field("Autopilot_Airspeed_Hold", BooleanField)
      case 10 => Field("Autopilot_Airspeed_Hold_Var", Int32Field)
      case 11 => Field("Autopilot_Altitude_Lock", BooleanField)
      case 12 => Field("Autopilot_Altitude_Lock_Var", Int32Field)
      case 13 => Field("Autopilot_Approach_Hold", BooleanField)
      case 14 => Field("Autopilot_Attitude_Hold", BooleanField)
      case _ => Field("Autopilot_Available", BooleanField)
    else if i < 24 then
      match i
      case 16 => Field("Autopilot_Backcourse_Hold", BooleanField)
      case 17 => Field("Autopilot_Disengaged", BooleanField)
      case 18 => Field("Autopilot_Flight_Director_Active", BooleanField)
      case 19 => Field("Autopilot_Heading_Lock", BooleanField)
      case 20 => Field("Autopilot_Heading_Lock_Dir", Int32Field)
      case 21 => Field("Autopilot_Master", BooleanField)
      case 22 => Field("Autopilot_Max_Bank_ID", Int32Field)
      case _ => Field("Autopilot_Nav_Selected", DoubleField)
    else if i < 32 then
      match i
      case 24 => Field("Autopilot_Nav1_Lock", BooleanField)
      case 25 => Field("Autopilot_Throttle_Arm", BooleanField)
      case 26 => Field("Autopilot_Vertical_Hold", BooleanField)
      case 27 => Field("Autopilot_Vertical_Hold_Var", Int32Field)
      case 28 => Field("Autopilot_Yaw_Damper", BooleanField)
      case 29 => Field("Bleed_Air_Source_Control", Int32Field)
      case 30 => Field("Brake_Parking_Indicator", BooleanField)
      case _ => Field("Circuit_Switch_On_17", BooleanField)
    else if i < 40 then
      match i
      case 32 => Field("Circuit_Switch_On_18", BooleanField)
      case 33 => Field("Circuit_Switch_On_19", BooleanField)
      case 34 => Field("Circuit_Switch_On_20", BooleanField)
      case 35 => Field("Circuit_Switch_On_21", BooleanField)
      case 36 => Field("Circuit_Switch_On_22", BooleanField)
      case 37 => Field("Com1_Active_Frequency", DoubleField)
      case 38 => Field("Com1_Standby_Frequency", DoubleField)
      case _ => Field("Com2_Active_Frequency", DoubleField)
    else if i < 48 then
      match i
      case 40 => Field("Com2_Standby_Frequency", DoubleField)
      case 41 => Field("Electrical_Master_Battery", BooleanField)
      case 42 => Field("External_Power_On", BooleanField)
      case 43 => Field("Engine_Anti_Ice_1", BooleanField)
      case 44 => Field("Engine_Anti_Ice_2", BooleanField)
      case 45 => Field("Engine_N1_RPM_1", DoubleField)
      case 46 => Field("Engine_N1_RPM_2", DoubleField)
      case _ => Field("Engine_N2_RPM_1", DoubleField)
    else if i < 56 then
      match i
      case 48 => Field("Engine_N2_RPM_2", DoubleField)
      case 49 => Field("Engine_Type", Int32Field)
      case 50 => Field("Flaps_Handle_Index", DoubleField)
      case 51 => Field("Flaps_Handle_Percent", DoubleField)
      case 52 => Field("Fuelsystem_Pump_Switch_1", BooleanField)
      case 53 => Field("Fuelsystem_Pump_Switch_2", BooleanField)
      case 54 => Field("Fuelsystem_Pump_Switch_3", BooleanField)
      case _ => Field("Fuelsystem_Pump_Switch_4", BooleanField)
    else if i < 64 then
      match i
      case 56 => Field("Fuelsystem_Pump_Switch_5", BooleanField)
      case 57 => Field("Fuelsystem_Pump_Switch_6", BooleanField)
      case 58 => Field("Fuelsystem_Valve_Switch_1", BooleanField)
      case 59 => Field("Fuelsystem_Valve_Switch_2", BooleanField)
      case 60 => Field("Fuelsystem_Valve_Switch_3", BooleanField)
      case 61 => Field("Gear_Handle_Position", Int32Field)
      case 62 => Field("General_Eng_Starter_1", BooleanField)
      case _ => Field("General_Eng_Starter_2", BooleanField)
    else if i < 72 then
      match i
      case 64 => Field("Ground_Velocity", Int32Field)
      case 65 => Field("Heading_Indicator", Int32Field)
      case 66 => Field("Hydraulic_Switch", BooleanField)
      case 67 => Field("Is_Gear_Retractable", BooleanField)
      case 68 => Field("Light_Beacon", BooleanField)
      case 69 => Field("Light_Cabin", BooleanField)
      case 70 => Field("Light_Landing", BooleanField)
      case _ => Field("Light_Logo", BooleanField)
    else if i < 80 then
      match i
      case 72 => Field("Light_Nav", BooleanField)
      case 73 => Field("Light_Panel", BooleanField)
      case 74 => Field("Light_Recognition", BooleanField)
      case 75 => Field("Light_Strobe", BooleanField)
      case 76 => Field("Light_Taxi", BooleanField)
      case 77 => Field("Light_Wing", BooleanField)
      case 78 => Field("Local_Time", Int32Field)
      case _ => Field("Master_Ignition_Switch", BooleanField)
    else if i < 88 then
      match i
      case 80 => Field("Nav1_Active_Frequency", DoubleField)
      case 81 => Field("Nav1_Standby_Frequency", DoubleField)
      case 82 => Field("Nav2_Active_Frequency", DoubleField)
      case 83 => Field("Nav2_Standby_Frequency", DoubleField)
      case 84 => Field("Number_Of_Engines", DoubleField)
      case 85 => Field("Panel_Anti_Ice_Switch", BooleanField)
      case 86 => Field("Pitot_Heat", BooleanField)
      case _ => Field("Plane_Alt_Above_Ground", Int32Field)
    else if i < 96 then
      match i
      case 88 => Field("Plane_Altitude", Int32Field)
      case 89 => Field("Plane_Latitude", DoubleField)
      case 90 => Field("Plane_Longitude", DoubleField)
      case 91 => Field("Prop_Deice_Switch", BooleanField)
      case 92 => Field("Pushback_State", Int32Field)
      case 93 => Field("Sim_On_Ground", BooleanField)
      case 94 => Field("Spoiler_Available", BooleanField)
      case _ => Field("Spoilers_Handle_Position", DoubleField)
    else
      match i
      case 96 => Field("Structural_Deice_Switch", BooleanField)
      case 97 => Field("Title", TextField(256))
      case 98 => Field("Transponder_Available", BooleanField)
      case 99 => Field("Transponder_Code", Int32Field)
      case 100 => Field("Vertical_Speed", Int32Field)
      case 101 => Field("Water_Rudder_Handle_Position", Int32Field)
      case 102 => Field("Windshield_Deice_Switch", BooleanField)
      case _ => Field("Alt_Variable", DoubleField)
  }

  /** Finds a field by its name (what reflection's GetField does): the decision
      looks at the length of the name and at a few of its characters, then
      compares the whole name with the one candidate left. */
  function FieldIndex(s: string): (r: Option<nat>)
    ensures r.Some? ==> r.value < FieldCount && FieldAt(r.value).name == s
  {
    match |s|
    case 5 => Found(s, 97)
    case 6 => Found(s, 7)
    case 9 => Found(s, 72)
    case 10 => FindOfLength10(s)
    case 11 => FindOfLength11(s)
    case 12 => FindOfLength12(s)
    case 13 => FindOfLength13(s)
    case 14 => FindOfLength14(s)
    case 15 => FindOfLength15(s)
    case 16 => FindOfLength16(s)
    case 17 => FindOfLength17(s)
    case 18 => FindOfLength18(s)
    case 19 => FindOfLength19(s)
    case 20 => FindOfLength20(s)
    case 21 => FindOfLength21(s)
    case 22 => FindOfLength22(s)
    case 23 => FindOfLength23(s)
    case 24 => FindOfLength24(s)
    case 25 => FindOfLength25(s)
    case 26 => Found(s, 20)
    case 27 => FindOfLength27(s)
    case 28 => Found(s, 101)
    case 32 => Found(s, 18)
    case _ => None
  }

  function FindOfLength10(s: string): (r: Option<nat>)
    requires |s| == 10
    ensures r.Some? ==> r.value < FieldCount && FieldAt(r.value).name == s
  {
    if s[8] == 'c' then Found(s, 2)
    else if s[8] == 'g' then Found(s, 71)
    else if s[8] == 'x' then Found(s, 76)
    else if s[8] == 'n' then Found(s, 77)
    else if s[8] == 'm' then Found(s, 78)
    else Found(s, 86)
  }

  function FindOfLength11(s: string): (r: Option<nat>)
    requires |s| == 11
    ensures r.Some? ==> r.value < FieldCount && FieldAt(r.value).name == s
  {
    if s[6] == 't' then Found(s, 4)
    else if s[6] == 'r' then Found(s, 5)
    else if s[6] == '_' then Found(s, 49)
    else if s[6] == 'C' then Found(s, 69)
    else Found(s, 73)
  }

  function FindOfLength12(s: string): (r: Option<nat>)
    requires |s| == 12
    ensures r.Some? ==> r.value < FieldCount && FieldAt(r.value).name == s
  {
    if s[6] == 'B' then Found(s, 68)
    else if s[6] == 'S' then Found(s, 75)
    else Found(s, 103)
  }

  function FindOfLength13(s: string): (r: Option<nat>)
    requires |s| == 13
    ensures r.Some? ==> r.value < FieldCount && FieldAt(r.value).name == s
  {
    if s[0] == 'L' then Found(s, 70)
    else Found(s, 93)
  }

  function FindOfLength14(s: string): (r: Option<nat>)
    requires |s| == 14
    ensures r.Some? ==> r.value < FieldCount && FieldAt(r.value).name == s
  {
    if s[6] == 'A' then Found(s, 88)
    else if s[6] == 'L' then Found(s, 89)
    else if s[6] == 'c' then Found(s, 92)
    else Found(s, 100)
  }

  function FindOfLength15(s: string): (r: Option<nat>)
    requires |s| == 15
    ensures r.Some? ==> r.value < FieldCount && FieldAt(r.value).name == s
  {
    if s[8] == '1' then (if s[14] == '1' then Found(s, 45)
      else Found(s, 46))
    else if s[8] == '2' then (if s[14] == '1' then Found(s, 47)
      else Found(s, 48))
    else if s[8] == 'e' then Found(s, 64)
    else Found(s, 90)
  }

  function FindOfLength16(s: string): (r: Option<nat>)
    requires |s| == 16
    ensures r.Some? ==> r.value < FieldCount && FieldAt(r.value).name == s
  {
    if s[0] == 'A' then Found(s, 21)
    else if s[0] == 'H' then Found(s, 66)
    else Found(s, 99)
  }

  function FindOfLength17(s: string): (r: Option<nat>)
    requires |s| == 17
    ensures r.Some? ==> r.value < FieldCount && FieldAt(r.value).name == s
  {
    if s[1] == 't' then Found(s, 6)
    else if s[1] == 'x' then Found(s, 42)
    else if s[1] == 'n' then (if s[16] == '1' then Found(s, 43)
      else Found(s, 44))
    else if s[1] == 'e' then Found(s, 65)
    else if s[1] == 'i' then Found(s, 74)
    else if s[1] == 'u' then Found(s, 84)
    else if s[1] == 'r' then Found(s, 91)
    else Found(s, 94)
  }

  function FindOfLength18(s: string): (r: Option<nat>)
    requires |s| == 18
    ensures r.Some? ==> r.value < FieldCount && FieldAt(r.value).name == s
  {
    if s[0] == 'A' then Found(s, 0)
    else Found(s, 50)
  }

  function FindOfLength19(s: string): (r: Option<nat>)
    requires |s| == 19
    ensures r.Some? ==> r.value < FieldCount && FieldAt(r.value).name == s
  {
    if s[10] == 'm' then Found(s, 1)
    else if s[10] == 'A' then Found(s, 15)
    else if s[10] == 'N' then Found(s, 24)
    else Found(s, 67)
  }

  function FindOfLength20(s: string): (r: Option<nat>)
    requires |s| == 20
    ensures r.Some? ==> r.value < FieldCount && FieldAt(r.value).name == s
  {
    if s[19] == 'h' then Found(s, 3)
    else if s[19] == 'B' then Found(s, 8)
    else if s[19] == 'd' then Found(s, 17)
    else if s[19] == 'r' then Found(s, 28)
    else if s[19] == '7' then Found(s, 31)
    else if s[19] == '8' then Found(s, 32)
    else if s[19] == '9' then Found(s, 33)
    else if s[19] == '0' then Found(s, 34)
    else if s[19] == '1' then Found(s, 35)
    else if s[19] == '2' then Found(s, 36)
    else if s[19] == 't' then Found(s, 51)
    else Found(s, 61)
  }

  function FindOfLength21(s: string): (r: Option<nat>)
    requires |s| == 21
    ensures r.Some? ==> r.value < FieldCount && FieldAt(r.value).name == s
  {
    if s[0] == 'A' then Found(s, 22)
    else if s[0] == 'C' then (if s[3] == '1' then Found(s, 37)
      else Found(s, 39))
    else if s[0] == 'G' then (if s[20] == '1' then Found(s, 62)
      else Found(s, 63))
    else if s[0] == 'N' then (if s[3] == '1' then Found(s, 80)
      else Found(s, 82))
    else if s[0] == 'P' then Found(s, 85)
    else Found(s, 98)
  }

  function FindOfLength22(s: string): (r: Option<nat>)
    requires |s| == 22
    ensures r.Some? ==> r.value < FieldCount && FieldAt(r.value).name == s
  {
    if s[10] == 'H' then Found(s, 19)
    else if s[10] == 'N' then Found(s, 23)
    else if s[10] == 'T' then Found(s, 25)
    else if s[10] == 'b' then (if s[0] == 'C' then (if s[3] == '1' then Found(s, 38)
        else Found(s, 40))
      else (if s[3] == '1' then Found(s, 81)
        else Found(s, 83)))
    else if s[10] == 'i' then Found(s, 79)
    else Found(s, 87)
  }

  function FindOfLength23(s: string): (r: Option<nat>)
    requires |s| == 23
    ensures r.Some? ==> r.value < FieldCount && FieldAt(r.value).name == s
  {
    if s[11] == 'i' then Found(s, 9)
    else if s[11] == 'l' then Found(s, 11)
    else if s[11] == 'p' then Found(s, 13)
    else if s[11] == 't' then Found(s, 14)
    else if s[11] == 'e' then Found(s, 26)
    else if s[11] == 'n' then Found(s, 30)
    else (if s[0] == 'S' then Found(s, 96)
      else Found(s, 102))
  }

  function FindOfLength24(s: string): (r: Option<nat>)
    requires |s| == 24
    ensures r.Some? ==> r.value < FieldCount && FieldAt(r.value).name == s
  {
    if s[23] == 'l' then Found(s, 29)
    else if s[23] == '1' then Found(s, 52)
    else if s[23] == '2' then Found(s, 53)
    else if s[23] == '3' then Found(s, 54)
    else if s[23] == '4' then Found(s, 55)
    else if s[23] == '5' then Found(s, 56)
    else if s[23] == '6' then Found(s, 57)
    else Found(s, 95)
  }

  function FindOfLength25(s: string): (r: Option<nat>)
    requires |s| == 25
    ensures r.Some? ==> r.value < FieldCount && FieldAt(r.value).name == s
  {
    if s[24] == 'd' then Found(s, 16)
    else if s[24] == 'y' then Found(s, 41)
    else if s[24] == '1' then Found(s, 58)
    else if s[24] == '2' then Found(s, 59)
    else Found(s, 60)
  }

  function FindOfLength27(s: string): (r: Option<nat>)
    requires |s| == 27
    ensures r.Some? ==> r.value < FieldCount && FieldAt(r.value).name == s
  {
    if s[11] == 'i' then Found(s, 10)
    else if s[11] == 'l' then Found(s, 12)
    else Found(s, 27)
  }

  lemma FieldIndexFrom0()
    ensures forall i :: 0 <= i < 2 ==> FieldIndex(FieldAt(i).name) == Some(i)
  {
    forall i | 0 <= i < 2 ensures FieldIndex(FieldAt(i).name) == Some(i) {
      if i == 0 {} else {}
    }
  }

  lemma FieldIndexFrom2()
    ensures forall i :: 2 <= i < 4 ==> FieldIndex(FieldAt(i).name) == Some(i)
  {
    forall i | 2 <= i < 4 ensures FieldIndex(FieldAt(i).name) == Some(i) {
      if i == 2 {} else {}
    }
  }

  lemma FieldIndexFrom4()
    ensures forall i :: 4 <= i < 6 ==> FieldIndex(FieldAt(i).name) == Some(i)
  {
    forall i | 4 <= i < 6 ensures FieldIndex(FieldAt(i).name) == Some(i) {
      if i == 4 {} else {}
    }
  }

  lemma FieldIndexFrom6()
    ensures forall i :: 6 <= i < 8 ==> FieldIndex(FieldAt(i).name) == Some(i)
  {
    forall i | 6 <= i < 8 ensures FieldIndex(FieldAt(i).name) == Some(i) {
      if i == 6 {} else {}
    }
  }

  lemma FieldIndexFrom8()
    ensures forall i :: 8 <= i < 10 ==> FieldIndex(FieldAt(i).name) == Some(i)
  {
    forall i | 8 <= i < 10 ensures FieldIndex(FieldAt(i).name) == Some(i) {
      if i == 8 {} else {}
    }
  }

  lemma FieldIndexFrom10()
    ensures forall i :: 10 <= i < 12 ==> FieldIndex(FieldAt(i).name) == Some(i)
  {
    forall i | 10 <= i < 12 ensures FieldIndex(FieldAt(i).name) == Some(i) {
      if i == 10 {} else {}
    }
  }

  lemma FieldIndexFrom12()
    ensures forall i :: 12 <= i < 14 ==> FieldIndex(FieldAt(i).name) == Some(i)
  {
    forall i | 12 <= i < 14 ensures FieldIndex(FieldAt(i).name) == Some(i) {
      if i == 12 {} else {}
    }
  }

  lemma FieldIndexFrom14()
    ensures forall i :: 14 <= i < 16 ==> FieldIndex(FieldAt(i).name) == Some(i)
  {
    forall i | 14 <= i < 16 ensures FieldIndex(FieldAt(i).name) == Some(i) {
      if i == 14 {} else {}
    }
  }

  lemma FieldIndexFrom16()
    ensures forall i :: 16 <= i < 18 ==> FieldIndex(FieldAt(i).name) == Some(i)
  {
    forall i | 16 <= i < 18 ensures FieldIndex(FieldAt(i).name) == Some(i) {
      if i == 16 {} else {}
    }
  }

  lemma FieldIndexFrom18()
    ensures forall i :: 18 <= i < 20 ==> FieldIndex(FieldAt(i).name) == Some(i)
  {
    forall i | 18 <= i < 20 ensures FieldIndex(FieldAt(i).name) == Some(i) {
      if i == 18 {} else {}
    }
  }

  lemma FieldIndexFrom20()
    ensures forall i :: 20 <= i < 22 ==> FieldIndex(FieldAt(i).name) == Some(i)
  {
    forall i | 20 <= i < 22 ensures FieldIndex(FieldAt(i).name) == Some(i) {
      if i == 20 {} else {}
    }
  }

  lemma FieldIndexFrom22()
    ensures forall i :: 22 <= i < 24 ==> FieldIndex(FieldAt(i).name) == Some(i)
  {
    forall i | 22 <= i < 24 ensures FieldIndex(FieldAt(i).name) == Some(i) {
      if i == 22 {} else {}
    }
  }

  lemma FieldIndexFrom24()
    ensures forall i :: 24 <= i < 26 ==> FieldIndex(FieldAt(i).name) == Some(i)
  {
    forall i | 24 <= i < 26 ensures FieldIndex(FieldAt(i).name) == Some(i) {
      if i == 24 {} else {}
    }
  }

  lemma FieldIndexFrom26()
    ensures forall i :: 26 <= i < 28 ==> FieldIndex(FieldAt(i).name) == Some(i)
  {
    forall i | 26 <= i < 28 ensures FieldIndex(FieldAt(i).name) == Some(i) {
      if i == 26 {} else {}
    }
  }

  lemma FieldIndexFrom28()
    ensures forall i :: 28 <= i < 30 ==> FieldIndex(FieldAt(i).name) == Some(i)
  {
    forall i | 28 <= i < 30 ensures FieldIndex(FieldAt(i).name) == Some(i) {
      if i == 28 {} else {}
    }
  }

  lemma FieldIndexFrom30()
    ensures forall i :: 30 <= i < 32 ==> FieldIndex(FieldAt(i).name) == Some(i)
  {
    forall i | 30 <= i < 32 ensures FieldIndex(FieldAt(i).name) == Some(i) {
      if i == 30 {} else {}
    }
  }

  lemma FieldIndexFrom32()
    ensures forall i :: 32 <= i < 34 ==> FieldIndex(FieldAt(i).name) == Some(i)
  {
    forall i | 32 <= i < 34 ensures FieldIndex(FieldAt(i).name) == Some(i) {
      if i == 32 {} else {}
    }
  }

  lemma FieldIndexFrom34()
    ensures forall i :: 34 <= i < 36 ==> FieldIndex(FieldAt(i).name) == Some(i)
  {
    forall i | 34 <= i < 36 ensures FieldIndex(FieldAt(i).name) == Some(i) {
      if i == 34 {} else {}
    }
  }

  lemma FieldIndexFrom36()
    ensures forall i :: 36 <= i < 38 ==> FieldIndex(FieldAt(i).name) == Some(i)
  {
    forall i | 36 <= i < 38 ensures FieldIndex(FieldAt(i).name) == Some(i) {
      if i == 36 {} else {}
    }
  }

  lemma FieldIndexFrom38()
    ensures forall i :: 38 <= i < 40 ==> FieldIndex(FieldAt(i).name) == Some(i)
  {
    forall i | 38 <= i < 40 ensures FieldIndex(FieldAt(i).name) == Some(i) {
      if i == 38 {} else {}
    }
  }

  lemma FieldIndexFrom40()
    ensures forall i :: 40 <= i < 42 ==> FieldIndex(FieldAt(i).name) == Some(i)
  {
    forall i | 40 <= i < 42 ensures FieldIndex(FieldAt(i).name) == Some(i) {
      if i == 40 {} else {}
    }
  }

  lemma FieldIndexFrom42()
    ensures forall i :: 42 <= i < 44 ==> FieldIndex(FieldAt(i).name) == Some(i)
  {
    forall i | 42 <= i < 44 ensures FieldIndex(FieldAt(i).name) == Some(i) {
      if i == 42 {} else {}
    }
  }

  lemma FieldIndexFrom44()
    ensures forall i :: 44 <= i < 46 ==> FieldIndex(FieldAt(i).name) == Some(i)
  {
    forall i | 44 <= i < 46 ensures FieldIndex(FieldAt(i).name) == Some(i) {
      if i == 44 {} else {}
    }
  }

  lemma FieldIndexFrom46()
    ensures forall i :: 46 <= i < 48 ==> FieldIndex(FieldAt(i).name) == Some(i)
  {
    forall i | 46 <= i < 48 ensures FieldIndex(FieldAt(i).name) == Some(i) {
      if i == 46 {} else {}
    }
  }

  lemma FieldIndexFrom48()
    ensures forall i :: 48 <= i < 50 ==> FieldIndex(FieldAt(i).name) == Some(i)
  {
    forall i | 48 <= i < 50 ensures FieldIndex(FieldAt(i).name) == Some(i) {
      if i == 48 {} else {}
    }
  }

  lemma FieldIndexFrom50()
    ensures forall i :: 50 <= i < 52 ==> FieldIndex(FieldAt(i).name) == Some(i)
  {
    forall i | 50 <= i < 52 ensures FieldIndex(FieldAt(i).name) == Some(i) {
      if i == 50 {} else {}
    }
  }

  lemma FieldIndexFrom52()
    ensures forall i :: 52 <= i < 54 ==> FieldIndex(FieldAt(i).name) == Some(i)
  {
    forall i | 52 <= i < 54 ensures FieldIndex(FieldAt(i).name) == Some(i) {
      if i == 52 {} else {}
    }
  }

  lemma FieldIndexFrom54()
    ensures forall i :: 54 <= i < 56 ==> FieldIndex(FieldAt(i).name) == Some(i)
  {
    forall i | 54 <= i < 56 ensures FieldIndex(FieldAt(i).name) == Some(i) {
      if i == 54 {} else {}
    }
  }

  lemma FieldIndexFrom56()
    ensures forall i :: 56 <= i < 58 ==> FieldIndex(FieldAt(i).name) == Some(i)
  {
    forall i | 56 <= i < 58 ensures FieldIndex(FieldAt(i).name) == Some(i) {
      if i == 56 {} else {}
    }
  }

  lemma FieldIndexFrom58()
    ensures forall i :: 58 <= i < 60 ==> FieldIndex(FieldAt(i).name) == Some(i)
  {
    forall i | 58 <= i < 60 ensures FieldIndex(FieldAt(i).name) == Some(i) {
      if i == 58 {} else {}
    }
  }

  lemma FieldIndexFrom60()
    ensures forall i :: 60 <= i < 62 ==> FieldIndex(FieldAt(i).name) == Some(i)
  {
    forall i | 60 <= i < 62 ensures FieldIndex(FieldAt(i).name) == Some(i) {
      if i == 60 {} else {}
    }
  }

  lemma FieldIndexFrom62()
    ensures forall i :: 62 <= i < 64 ==> FieldIndex(FieldAt(i).name) == Some(i)
  {
    forall i | 62 <= i < 64 ensures FieldIndex(FieldAt(i).name) == Some(i) {
      if i == 62 {} else {}
    }
  }

  lemma FieldIndexFrom64()
    ensures forall i :: 64 <= i < 66 ==> FieldIndex(FieldAt(i).name) == Some(i)
  {
    forall i | 64 <= i < 66 ensures FieldIndex(FieldAt(i).name) == Some(i) {
      if i == 64 {} else {}
    }
  }

  lemma FieldIndexFrom66()
    ensures forall i :: 66 <= i < 68 ==> FieldIndex(FieldAt(i).name) == Some(i)
  {
    forall i | 66 <= i < 68 ensures FieldIndex(FieldAt(i).name) == Some(i) {
      if i == 66 {} else {}
    }
  }

  lemma FieldIndexFrom68()
    ensures forall i :: 68 <= i < 70 ==> FieldIndex(FieldAt(i).name) == Some(i)
  {
    forall i | 68 <= i < 70 ensures FieldIndex(FieldAt(i).name) == Some(i) {
      if i == 68 {} else {}
    }
  }

  lemma FieldIndexFrom70()
    ensures forall i :: 70 <= i < 72 ==> FieldIndex(FieldAt(i).name) == Some(i)
  {
    forall i | 70 <= i < 72 ensures FieldIndex(FieldAt(i).name) == Some(i) {
      if i == 70 {} else {}
    }
  }

  lemma FieldIndexFrom72()
    ensures forall i :: 72 <= i < 74 ==> FieldIndex(FieldAt(i).name) == Some(i)
  {
    forall i | 72 <= i < 74 ensures FieldIndex(FieldAt(i).name) == Some(i) {
      if i == 72 {} else {}
    }
  }

  lemma FieldIndexFrom74()
    ensures forall i :: 74 <= i < 76 ==> FieldIndex(FieldAt(i).name) == Some(i)
  {
    forall i | 74 <= i < 76 ensures FieldIndex(FieldAt(i).name) == Some(i) {
      if i == 74 {} else {}
    }
  }

  lemma FieldIndexFrom76()
    ensures forall i :: 76 <= i < 78 ==> FieldIndex(FieldAt(i).name) == Some(i)
  {
    forall i | 76 <= i < 78 ensures FieldIndex(FieldAt(i).name) == Some(i) {
      if i == 76 {} else {}
    }
  }

  lemma FieldIndexFrom78()
    ensures forall i :: 78 <= i < 80 ==> FieldIndex(FieldAt(i).name) == Some(i)
  {
    forall i | 78 <= i < 80 ensures FieldIndex(FieldAt(i).name) == Some(i) {
      if i == 78 {} else {}
    }
  }

  lemma FieldIndexFrom80()
    ensures forall i :: 80 <= i < 82 ==> FieldIndex(FieldAt(i).name) == Some(i)
  {
    forall i | 80 <= i < 82 ensures FieldIndex(FieldAt(i).name) == Some(i) {
      if i == 80 {} else {}
    }
  }

  lemma FieldIndexFrom82()
    ensures forall i :: 82 <= i < 84 ==> FieldIndex(FieldAt(i).name) == Some(i)
  {
    forall i | 82 <= i < 84 ensures FieldIndex(FieldAt(i).name) == Some(i) {
      if i == 82 {} else {}
    }
  }

  lemma FieldIndexFrom84()
    ensures forall i :: 84 <= i < 86 ==> FieldIndex(FieldAt(i).name) == Some(i)
  {
    forall i | 84 <= i < 86 ensures FieldIndex(FieldAt(i).name) == Some(i) {
      if i == 84 {} else {}
    }
  }

  lemma FieldIndexFrom86()
    ensures forall i :: 86 <= i < 88 ==> FieldIndex(FieldAt(i).name) == Some(i)
  {
    forall i | 86 <= i < 88 ensures FieldIndex(FieldAt(i).name) == Some(i) {
      if i == 86 {} else {}
    }
  }

  lemma FieldIndexFrom88()
    ensures forall i :: 88 <= i < 90 ==> FieldIndex(FieldAt(i).name) == Some(i)
  {
    forall i | 88 <= i < 90 ensures FieldIndex(FieldAt(i).name) == Some(i) {
      if i == 88 {} else {}
    }
  }

  lemma FieldIndexFrom90()
    ensures forall i :: 90 <= i < 92 ==> FieldIndex(FieldAt(i).name) == Some(i)
  {
    forall i | 90 <= i < 92 ensures FieldIndex(FieldAt(i).name) == Some(i) {
      if i == 90 {} else {}
    }
  }

  lemma FieldIndexFrom92()
    ensures forall i :: 92 <= i < 94 ==> FieldIndex(FieldAt(i).name) == Some(i)
  {
    forall i | 92 <= i < 94 ensures FieldIndex(FieldAt(i).name) == Some(i) {
      if i == 92 {} else {}
    }
  }

  lemma FieldIndexFrom94()
    ensures forall i :: 94 <= i < 96 ==> FieldIndex(FieldAt(i).name) == Some(i)
  {
    forall i | 94 <= i < 96 ensures FieldIndex(FieldAt(i).name) == Some(i) {
      if i == 94 {} else {}
    }
  }

  lemma FieldIndexFrom96()
    ensures forall i :: 96 <= i < 98 ==> FieldIndex(FieldAt(i).name) == Some(i)
  {
    forall i | 96 <= i < 98 ensures FieldIndex(FieldAt(i).name) == Some(i) {
      if i == 96 {} else {}
    }
  }

  lemma FieldIndexFrom98()
    ensures forall i :: 98 <= i < 100 ==> FieldIndex(FieldAt(i).name) == Some(i)
  {
    forall i | 98 <= i < 100 ensures FieldIndex(FieldAt(i).name) == Some(i) {
      if i == 98 {} else {}
    }
  }

  lemma FieldIndexFrom100()
    ensures forall i :: 100 <= i < 102 ==> FieldIndex(FieldAt(i).name) == Some(i)
  {
    forall i | 100 <= i < 102 ensures FieldIndex(FieldAt(i).name) == Some(i) {
      if i == 100 {} else {}
    }
  }

  lemma FieldIndexFrom102()
    ensures forall i :: 102 <= i < 104 ==> FieldIndex(FieldAt(i).name) == Some(i)
  {
    forall i | 102 <= i < 104 ensures FieldIndex(FieldAt(i).name) == Some(i) {
      if i == 102 {} else {}
    }
  }

  /** The candidate left by the decision in FieldIndex, kept only if the whole
      name matches. */
  function Found(s: string, k: nat): (r: Option<nat>)
    requires k < FieldCount
    ensures r.Some? <==> FieldAt(k).name == s
    ensures r.Some? ==> r.value == k
  {
    if FieldAt(k).name == s then Some(k) else None
  }

  /** typeof(PlaneState).GetFields(): the declared fields, in order. */
  function PlaneStateFields(): (fs: seq<Field>)
    ensures |fs| == FieldCount
    ensures forall i :: 0 <= i < FieldCount ==> fs[i] == FieldAt(i)
  {
    seq(FieldCount, i requires 0 <= i < FieldCount => FieldAt(i))
  }

  /** Every declared name is found again at its own position. */
  lemma FieldIndexInverse()
    ensures forall i :: 0 <= i < FieldCount ==> FieldIndex(FieldAt(i).name) == Some(i)
  {
    FieldIndexFrom0(); FieldIndexFrom2(); FieldIndexFrom4(); FieldIndexFrom6(); FieldIndexFrom8();
    FieldIndexFrom10(); FieldIndexFrom12(); FieldIndexFrom14(); FieldIndexFrom16(); FieldIndexFrom18();
    FieldIndexFrom20(); FieldIndexFrom22(); FieldIndexFrom24(); FieldIndexFrom26(); FieldIndexFrom28();
    FieldIndexFrom30(); FieldIndexFrom32(); FieldIndexFrom34(); FieldIndexFrom36(); FieldIndexFrom38();
    FieldIndexFrom40(); FieldIndexFrom42(); FieldIndexFrom44(); FieldIndexFrom46(); FieldIndexFrom48();
    FieldIndexFrom50(); FieldIndexFrom52(); FieldIndexFrom54(); FieldIndexFrom56(); FieldIndexFrom58();
    FieldIndexFrom60(); FieldIndexFrom62(); FieldIndexFrom64(); FieldIndexFrom66(); FieldIndexFrom68();
    FieldIndexFrom70(); FieldIndexFrom72(); FieldIndexFrom74(); FieldIndexFrom76(); FieldIndexFrom78();
    FieldIndexFrom80(); FieldIndexFrom82(); FieldIndexFrom84(); FieldIndexFrom86(); FieldIndexFrom88();
    FieldIndexFrom90(); FieldIndexFrom92(); FieldIndexFrom94(); FieldIndexFrom96(); FieldIndexFrom98();
    FieldIndexFrom100(); FieldIndexFrom102();
  }

  /** Field names are pairwise distinct, so a name identifies one field. */
  lemma FieldNamesDistinct()
    ensures forall i, j :: 0 <= i < j < FieldCount ==> FieldAt(i).name != FieldAt(j).name
  {
    FieldIndexInverse();
  }

  /** Every field has one of the four kinds the publisher dispatches on, and
      every text field is a 256-byte buffer. */
  lemma FieldKindsSupported()
    ensures forall i :: 0 <= i < FieldCount ==>
      FieldAt(i).kind in {Int32Field, BooleanField, DoubleField, TextField(256)}
  {
  }

  /** The text fields are exactly Atc_Airline, Atc_Flight_Number, Atc_Id and
      Title. */
  lemma TextFieldsAreTheAtcFieldsAndTitle()
    ensures forall i :: 0 <= i < FieldCount ==>
      (FieldAt(i).kind.TextField? <==>
       FieldAt(i).name in {"Atc_Airline", "Atc_Flight_Number", "Atc_Id", "Title"})
  {
    FieldIndexInverse();
    forall i | 0 <= i < FieldCount
      ensures FieldAt(i).kind.TextField? <==>
              FieldAt(i).name in {"Atc_Airline", "Atc_Flight_Number", "Atc_Id", "Title"}
    {
      if FieldAt(i).name in {"Atc_Airline", "Atc_Flight_Number", "Atc_Id", "Title"} {
        var k := FieldIndex(FieldAt(i).name).value;
        assert k == i;
        assert k in {5, 6, 7, 97};
      }
    }
  }

  /** The last field is Alt_Variable, a double, and it is the only field of
      that name. */
  lemma AltVariableIsLastAndDouble()
    ensures FieldAt(FieldCount - 1) == Field("Alt_Variable", DoubleField)
    ensures forall i :: 0 <= i < FieldCount && FieldAt(i).name == "Alt_Variable" ==> i == FieldCount - 1
  {
    FieldNamesDistinct();
  }

  /** The number of bytes a field of the given kind occupies in the
      sequential layout with Pack = 1. */
  function MarshalSize(k: FieldKind): (n: nat)
    ensures k.TextField? ==> n == k.size
    ensures k == Int32Field || k == BooleanField ==> n == 4
    ensures k == DoubleField ==> n == 8
  {
    match k
    case Int32Field => 4
    case BooleanField => 4
    case DoubleField => 8
    case TextField(size) => size
  }

  /** Byte offset of field i: fields are laid out one after the other with no
      padding, so it is the total size of the fields declared before it. */
  function Offset(i: nat): nat
    requires i <= FieldCount
  {
    if i == 0 then 0 else Offset(i - 1) + MarshalSize(FieldAt(i - 1).kind)
  }

  /** Each field starts where the previous one ends, so offsets strictly
      increase in declaration order. */
  lemma {:induction false} OffsetsIncrease(i: nat, j: nat)
    requires i < j <= FieldCount
    ensures Offset(i) < Offset(j)
  {
    FieldKindsSupported();
    assert MarshalSize(FieldAt(j - 1).kind) > 0;
    if i < j - 1 {
      OffsetsIncrease(i, j - 1);
    }
  }

  lemma LayoutPrefix8()
    ensures Offset(8) == 792
  { }

  lemma LayoutPrefix16()
    ensures Offset(16) == 828
  { LayoutPrefix8(); }

  lemma LayoutPrefix24()
    ensures Offset(24) == 864
  { LayoutPrefix16(); }

  lemma LayoutPrefix32()
    ensures Offset(32) == 896
  { LayoutPrefix24(); }

  lemma LayoutPrefix40()
    ensures Offset(40) == 940
  { LayoutPrefix32(); }

  lemma LayoutPrefix48()
    ensures Offset(48) == 988
  { LayoutPrefix40(); }

  lemma LayoutPrefix56()
    ensures Offset(56) == 1032
  { LayoutPrefix48(); }

  lemma LayoutPrefix64()
    ensures Offset(64) == 1064
  { LayoutPrefix56(); }

  lemma LayoutPrefix72()
    ensures Offset(72) == 1096
  { LayoutPrefix64(); }

  lemma LayoutPrefix80()
    ensures Offset(80) == 1128
  { LayoutPrefix72(); }

  lemma LayoutPrefix88()
    ensures Offset(88) == 1180
  { LayoutPrefix80(); }

  lemma LayoutPrefix96()
    ensures Offset(96) == 1224
  { LayoutPrefix88(); }

  /** The whole record is 1512 bytes: the size SimConnect must deliver for the
      PlaneState data definition. */
  lemma StructSize()
    ensures Offset(FieldCount) == 1512
  { LayoutPrefix96(); }

  /** A 64-bit floating-point value; its numeric value is kept as a real. */
  datatype Double = Finite(value: real) | NaN | PositiveInfinity | NegativeInfinity

  newtype int32 = x: int | -0x8000_0000 <= x < 0x8000_0000

  /** The value held by one field of a PlaneState record. */
  datatype FieldValue =
    | IntValue(i: int32)
    | BoolValue(b: bool)
    | DoubleValue(d: Double)
    | TextValue(t: string)

  /** A value of the field's type; a by-value text buffer holds at most
      size - 1 characters before its terminating zero. */
  predicate Fits(v: FieldValue, k: FieldKind)
  {
    match k
    case Int32Field => v.IntValue?
    case BooleanField => v.BoolValue?
    case DoubleField => v.DoubleValue?
    case TextField(size) => v.TextValue? && |v.t| < size
  }

  /** A record of the given fields: one value per field, each of that
      field's type. */
  predicate IsRecord(fields: seq<Field>, r: seq<FieldValue>)
  {
    |r| == |fields| && forall i :: 0 <= i < |fields| ==> Fits(r[i], fields[i].kind)
  }

  /** A PlaneState record as marshalled from the simulator. */
  predicate IsPlaneState(r: seq<FieldValue>)
  {
    IsRecord(PlaneStateFields(), r)
  }

  /** No two of the fields share a name. */
  predicate DistinctNames(fields: seq<Field>)
  {
    forall i, j :: 0 <= i < j < |fields| ==> fields[i].name != fields[j].name
  }

  /** The declared fields have distinct names. */
  lemma PlaneStateNamesDistinct()
    ensures DistinctNames(PlaneStateFields())
  {
    FieldNamesDistinct();
  }
}
