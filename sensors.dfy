/** The seven sensor kinds of the integration and what each one shows: a fixed
    unique id, a display name, a native value and, for three of them, extra
    state attributes. Every projection is a read of fixed keys of the current
    status document; a missing key is the KeyError Python raises. */
module Sensors {
  import opened StatusDocument

  /** One sensor entity. A per-output sensor remembers the output key
      ("output1", "output2", ...) it was created for; the three system sensors
      read the "system" section. */
  datatype Entity =
    | Temperature(output: string)
    | Power(output: string)
    | HighAlarm(output: string)
    | LowAlarm(output: string)
    | InternalTemp
    | PowerResets
    | SafetyRelay
  {
    predicate PerOutput() {
      Temperature? || Power? || HighAlarm? || LowAlarm?
    }
  }

  /** The section of the document a sensor reads. */
  function SectionOf(e: Entity): string {
    if e.PerOutput() then e.output else "system"
  }

  /** A per-output sensor whose output key has the form the setup loop gives
      it ("output" followed by the index). */
  predicate KeyedByOutput(e: Entity) {
    e.PerOutput() ==> |e.output| >= 6 && e.output[..6] == "output"
  }

  // ---------------------------------------------------------------------------
  // Unique ids

  /** The `_attr_unique_id` templates: "spyder_", then the output key and the
      kind for a per-output sensor, or a fixed name for a system sensor. */
  function UniqueId(e: Entity): (r: string)
    ensures |r| > 7 && r[..7] == "spyder_"
    ensures e.PerOutput() ==> |r| > 7 + |e.output| && r[7..7 + |e.output|] == e.output
    ensures e.PerOutput() ==> r[7 + |e.output|] == '_'
  {
    match e
    case Temperature(o) => "spyder_" + o + "_temperature"
    case Power(o) => "spyder_" + o + "_power"
    case HighAlarm(o) => "spyder_" + o + "_high_alarm"
    case LowAlarm(o) => "spyder_" + o + "_low_alarm"
    case InternalTemp => "spyder_internal_temperature"
    case PowerResets => "spyder_power_resets"
    case SafetyRelay => "spyder_safety_relay"
  }

  /** The kind-specific tail of a per-output unique id. */
  function IdSuffix(e: Entity): string
    requires e.PerOutput()
  {
    match e
    case Temperature(_) => "_temperature"
    case Power(_) => "_power"
    case HighAlarm(_) => "_high_alarm"
    case LowAlarm(_) => "_low_alarm"
  }

  /** Two strings that end differently are different. */
  lemma DifferentEndings(x: string, s: string, y: string, t: string)
    requires |s| <= |t| && t[|t| - |s|..] != s
    ensures x + s != y + t
  {
    assert (x + s)[|x + s| - |s|..] == s;
    assert (y + t)[|y + t| - |s|..] == t[|t| - |s|..];
  }

  /** Two strings with the same prefix and suffix and different middles are different. */
  lemma DifferentMiddles(p: string, x: string, y: string, s: string)
    requires x != y
    ensures p + x + s != p + y + s
  {
    assert (p + x + s)[|p|..|p| + |x|] == x;
    assert (p + y + s)[|p|..|p| + |y|] == y;
  }

  /** Sensors of two different per-output kinds, or of one kind on two
      different outputs, have different ids. */
  lemma PerOutputIdsDiffer(e1: Entity, e2: Entity)
    requires e1.PerOutput() && e2.PerOutput() && e1 != e2
    ensures UniqueId(e1) != UniqueId(e2)
  {
    var s1, s2 := IdSuffix(e1), IdSuffix(e2);
    assert UniqueId(e1) == "spyder_" + e1.output + s1;
    assert UniqueId(e2) == "spyder_" + e2.output + s2;
    if s1 == s2 {
      DifferentMiddles("spyder_", e1.output, e2.output, s1);
    } else if |s1| <= |s2| {
      DifferentEndings("spyder_" + e1.output, s1, "spyder_" + e2.output, s2);
    } else {
      DifferentEndings("spyder_" + e2.output, s2, "spyder_" + e1.output, s1);
    }
  }

  /** A per-output sensor keyed "output..." never takes a system sensor's id. */
  lemma PerOutputIdIsNotSystemId(p: Entity, q: Entity)
    requires p.PerOutput() && KeyedByOutput(p) && !q.PerOutput()
    ensures UniqueId(p) != UniqueId(q)
  {
    var s := IdSuffix(p);
    assert UniqueId(p) == "spyder_" + p.output + s;
    if q.InternalTemp? && p.Temperature? {
      assert UniqueId(p)[7] == p.output[..6][0] == 'o';
    } else {
      DifferentEndings("spyder_" + p.output, s, [], UniqueId(q));
    }
  }

  /** A unique id names one sensor: no two sensors whose output keys have the
      form the setup loop gives them share an id. (An output keyed "internal"
      would collide with the internal temperature sensor; the loop never
      creates one.) */
  lemma UniqueIdInjective(e1: Entity, e2: Entity)
    requires KeyedByOutput(e1) && KeyedByOutput(e2)
    ensures e1 != e2 ==> UniqueId(e1) != UniqueId(e2)
  {
    if e1 != e2 {
      if e1.PerOutput() && e2.PerOutput() {
        PerOutputIdsDiffer(e1, e2);
      } else if e1.PerOutput() {
        PerOutputIdIsNotSystemId(e1, e2);
      } else if e2.PerOutput() {
        PerOutputIdIsNotSystemId(e2, e1);
      }
    }
  }

  // ---------------------------------------------------------------------------
  // Display names

  /** What a sensor's name says it measures. */
  function Label(e: Entity): string {
    match e
    case Temperature(_) => "Temperature"
    case Power(_) => "Power"
    case HighAlarm(_) => "High Alarm"
    case LowAlarm(_) => "Low Alarm"
    case InternalTemp => "Internal Temperature"
    case PowerResets => "Power Resets"
    case SafetyRelay => "Safety Relay"
  }

  /** `f"Spyder {nickname} <kind>"` with the nickname read from the output's
      section. */
  function NicknamedName(data: Document, output: string, kind: string): Result<string> {
    var nickname :- Lookup(data, output, "outputnickname");
    Success("Spyder " + Render(nickname) + " " + kind)
  }

  /** The `name` property. A per-output sensor formats the output's current
      nickname between "Spyder " and its label, and fails as the subscript does
      when the output or its nickname is missing; a system sensor's name is a
      constant that reads nothing. */
  function Name(data: Document, e: Entity): (r: Result<string>)
    ensures e.PerOutput() ==> (r.Success? <==> e.output in data && "outputnickname" in data[e.output])
    ensures e.PerOutput() && e.output !in data ==> r == Failure(KeyError(e.output))
    ensures e.PerOutput() && e.output in data && "outputnickname" !in data[e.output]
      ==> r == Failure(KeyError("outputnickname"))
    ensures e.PerOutput() && r.Success?
      ==> r.value == "Spyder " + Render(data[e.output]["outputnickname"]) + " " + Label(e)
    ensures !e.PerOutput() ==> r.Success?
  {
    match e
    case Temperature(o) => NicknamedName(data, o, "Temperature")
    case Power(o) => NicknamedName(data, o, "Power")
    case HighAlarm(o) => NicknamedName(data, o, "High Alarm")
    case LowAlarm(o) => NicknamedName(data, o, "Low Alarm")
    case InternalTemp => Success("Spyder Internal Temperature")
    case PowerResets => Success("Spyder Power Resets")
    case SafetyRelay => Success("Spyder Safety Relay")
  }

  /** A system sensor is called "Spyder " and its label, whatever the document
      holds. */
  lemma SystemSensorNames(data: Document, e: Entity)
    requires !e.PerOutput()
    ensures Name(data, e) == Success("Spyder " + Label(e))
  {
    match e
    case InternalTemp => assert "Spyder Internal Temperature" == "Spyder " + Label(e);
    case PowerResets => assert "Spyder Power Resets" == "Spyder " + Label(e);
    case SafetyRelay => assert "Spyder Safety Relay" == "Spyder " + Label(e);
  }

  lemma NamesOfOneOutputDiffer(data: Document, e1: Entity, e2: Entity)
    requires e1.PerOutput() && e2.PerOutput() && e1.output == e2.output
    requires Name(data, e1).Success? && Name(data, e2).Success?
    ensures Name(data, e1) == Name(data, e2) ==> e1 == e2
  {
  }

  // ---------------------------------------------------------------------------
  // Native values

  /** The field each sensor shows, within its section. */
  function ValueField(e: Entity): string {
    match e
    case Temperature(_) => "probereadingTEMP"
    case Power(_) => "poweroutput"
    case HighAlarm(_) => "highalarm"
    case LowAlarm(_) => "lowalarm"
    case InternalTemp => "internaltemp"
    case PowerResets => "powerresets"
    case SafetyRelay => "safetyrelay"
  }

  /** The `native_value` property: the stored reading itself, with no
      conversion, or the KeyError of the missing section or field. */
  function NativeValue(data: Document, e: Entity): (r: Result<Value>)
    ensures r.Success? <==> SectionOf(e) in data && ValueField(e) in data[SectionOf(e)]
    ensures r.Success? ==> r.value == data[SectionOf(e)][ValueField(e)]
    ensures SectionOf(e) !in data ==> r == Failure(KeyError(SectionOf(e)))
    ensures SectionOf(e) in data && ValueField(e) !in data[SectionOf(e)]
      ==> r == Failure(KeyError(ValueField(e)))
  {
    match e
    case Temperature(o) => Lookup(data, o, "probereadingTEMP")
    case Power(o) => Lookup(data, o, "poweroutput")
    case HighAlarm(o) => Lookup(data, o, "highalarm")
    case LowAlarm(o) => Lookup(data, o, "lowalarm")
    case InternalTemp => Lookup(data, "system", "internaltemp")
    case PowerResets => Lookup(data, "system", "powerresets")
    case SafetyRelay => Lookup(data, "system", "safetyrelay")
  }

  // ---------------------------------------------------------------------------
  // Extra state attributes

  /** The attributes a sensor adds, as (attribute, field) pairs in the order
      the source's dictionary display lists them. */
  function AttributeFields(e: Entity): seq<(string, string)> {
    match e
    case Temperature(_) =>
      [("max_temp", "probereadingTEMPMAX"), ("min_temp", "probereadingTEMPMIN"),
       ("current_setting", "currentsetting"), ("error_code", "errorcode"),
       ("error_description", "errorcodedescription")]
    case Power(_) => [("power_limit", "poweroutputLIMIT"), ("mode", "outputmode")]
    case InternalTemp => [("max_temp", "internaltempmax")]
    case _ => []
  }

  predicate DistinctNames(fields: seq<(string, string)>) {
    forall j, k :: 0 <= j < k < |fields| ==> fields[j].0 != fields[k].0
  }

  /** A dictionary display `{a: data[section][f], ...}` evaluated left to
      right: the first missing key raises, later entries overwrite earlier ones. */
  function ReadFields(data: Document, section: string, fields: seq<(string, string)>)
    : Result<map<string, Value>>
    decreases |fields|
  {
    if fields == [] then Success(map[])
    else
      var v :- Lookup(data, section, fields[0].1);
      var rest :- ReadFields(data, section, fields[1..]);
      Success(map[fields[0].0 := v] + rest)
  }

  /** Reading a table of fields succeeds exactly when every field is present. */
  lemma {:induction false} ReadFieldsSucceedsIff(data: Document, section: string, fields: seq<(string, string)>)
    ensures ReadFields(data, section, fields).Success?
      <==> forall k :: 0 <= k < |fields| ==> Lookup(data, section, fields[k].1).Success?
    decreases |fields|
  {
    if fields != [] {
      ReadFieldsSucceedsIff(data, section, fields[1..]);
      assert forall k :: 1 <= k < |fields| ==> fields[k] == fields[1..][k - 1];
    }
  }

  /** A successful read holds one entry per attribute name of the table. */
  lemma {:induction false} ReadFieldsKeys(data: Document, section: string, fields: seq<(string, string)>)
    requires ReadFields(data, section, fields).Success?
    ensures ReadFields(data, section, fields).value.Keys == set k | 0 <= k < |fields| :: fields[k].0
    decreases |fields|
  {
    if fields != [] {
      var tail := fields[1..];
      ReadFieldsKeys(data, section, tail);
      assert (set k | 0 <= k < |fields| :: fields[k].0)
        == {fields[0].0} + (set k | 0 <= k < |tail| :: tail[k].0);
    }
  }

  /** When no attribute name repeats, each attribute holds its field's value
      unchanged. */
  lemma {:induction false} ReadFieldsValues(data: Document, section: string, fields: seq<(string, string)>)
    requires ReadFields(data, section, fields).Success? && DistinctNames(fields)
    ensures forall k :: 0 <= k < |fields| ==>
      && section in data && fields[k].1 in data[section]
      && fields[k].0 in ReadFields(data, section, fields).value
      && ReadFields(data, section, fields).value[fields[k].0] == data[section][fields[k].1]
    decreases |fields|
  {
    if fields != [] {
      var tail := fields[1..];
      assert DistinctNames(tail) by {
        assert forall k :: 0 <= k < |tail| ==> tail[k] == fields[k + 1];
      }
      ReadFieldsValues(data, section, tail);
      ReadFieldsKeys(data, section, tail);
      forall k | 0 <= k < |fields|
        ensures section in data && fields[k].1 in data[section]
          && fields[k].0 in ReadFields(data, section, fields).value
          && ReadFields(data, section, fields).value[fields[k].0] == data[section][fields[k].1]
      {
        if k > 0 {
          assert fields[k] == tail[k - 1];
          assert fields[0].0 != fields[k].0;
        }
      }
    }
  }

  /** A failed read reports the KeyError of the first missing field. */
  lemma {:induction false} ReadFieldsFirstMissing(data: Document, section: string, fields: seq<(string, string)>)
    requires ReadFields(data, section, fields).Failure?
    ensures exists k ::
      && 0 <= k < |fields|
      && (forall j :: 0 <= j < k ==> Lookup(data, section, fields[j].1).Success?)
      && Lookup(data, section, fields[k].1) == Failure(ReadFields(data, section, fields).error)
    decreases |fields|
  {
    var tail := fields[1..];
    if Lookup(data, section, fields[0].1).Success? {
      ReadFieldsFirstMissing(data, section, tail);
      var k :| 0 <= k < |tail|
        && (forall j :: 0 <= j < k ==> Lookup(data, section, tail[j].1).Success?)
        && Lookup(data, section, tail[k].1) == Failure(ReadFields(data, section, tail).error);
      assert forall j :: 1 <= j <= k + 1 ==> fields[j] == tail[j - 1];
      assert Lookup(data, section, fields[k + 1].1) == Failure(ReadFields(data, section, fields).error);
    } else {
      assert Lookup(data, section, fields[0].1) == Failure(ReadFields(data, section, fields).error);
    }
  }

  /** The `extra_state_attributes` property of the temperature, power and
      internal temperature sensors; the other four keep the default, no
      attributes, and read nothing. */
  function Attributes(data: Document, e: Entity): (r: Result<Option<map<string, Value>>>)
    ensures r.Success? ==> (r.value.None? <==> AttributeFields(e) == [])
  {
    match e
    case Temperature(o) =>
      var maxTemp :- Lookup(data, o, "probereadingTEMPMAX");
      var minTemp :- Lookup(data, o, "probereadingTEMPMIN");
      var setting :- Lookup(data, o, "currentsetting");
      var code :- Lookup(data, o, "errorcode");
      var description :- Lookup(data, o, "errorcodedescription");
      Success(Some(map["max_temp" := maxTemp, "min_temp" := minTemp, "current_setting" := setting,
                       "error_code" := code, "error_description" := description]))
    case Power(o) =>
      var limit :- Lookup(data, o, "poweroutputLIMIT");
      var mode :- Lookup(data, o, "outputmode");
      Success(Some(map["power_limit" := limit, "mode" := mode]))
    case InternalTemp =>
      var maxTemp :- Lookup(data, "system", "internaltempmax");
      Success(Some(map["max_temp" := maxTemp]))
    case _ => Success(None)
  }

  /** Reading a list of fields reads the first, then the rest. */
  lemma ReadFieldsCons(data: Document, section: string, fields: seq<(string, string)>)
    requires fields != []
    ensures ReadFields(data, section, fields) ==
      match Lookup(data, section, fields[0].1)
      case Failure(err) => Failure(err)
      case Success(v) =>
        match ReadFields(data, section, fields[1..])
        case Failure(err) => Failure(err)
        case Success(m) => Success(map[fields[0].0 := v] + m)
  {
  }

  /** Attributes agrees with reading its table through ReadFields. */
  predicate ReadsTable(data: Document, e: Entity) {
    match ReadFields(data, SectionOf(e), AttributeFields(e))
    case Success(m) => Attributes(data, e) == Success(Some(m))
    case Failure(err) => Attributes(data, e) == Failure(err)
  }

  lemma TemperatureReadsTable(data: Document, o: string)
    ensures ReadsTable(data, Temperature(o))
  {
    var fields := AttributeFields(Temperature(o));
    ReadFieldsCons(data, o, fields[4..]);
    assert fields[4..][1..] == [];
    ReadFieldsCons(data, o, fields[3..]);
    assert fields[3..][1..] == fields[4..];
    ReadFieldsCons(data, o, fields[2..]);
    assert fields[2..][1..] == fields[3..];
    ReadFieldsCons(data, o, fields[1..]);
    assert fields[1..][1..] == fields[2..];
    ReadFieldsCons(data, o, fields);
    var maxTemp, minTemp := Lookup(data, o, "probereadingTEMPMAX"), Lookup(data, o, "probereadingTEMPMIN");
    var setting, code := Lookup(data, o, "currentsetting"), Lookup(data, o, "errorcode");
    var description := Lookup(data, o, "errorcodedescription");
    if maxTemp.Success? && minTemp.Success? && setting.Success? && code.Success? && description.Success? {
      assert ReadFields(data, o, []) == Success(map[]);
      var m := map["max_temp" := maxTemp.value] + (map["min_temp" := minTemp.value] +
        (map["current_setting" := setting.value] + (map["error_code" := code.value] +
        (map["error_description" := description.value] + map[]))));
      assert ReadFields(data, o, fields) == Success(m);
      assert m == map["max_temp" := maxTemp.value, "min_temp" := minTemp.value,
        "current_setting" := setting.value, "error_code" := code.value,
        "error_description" := description.value];
    }
  }

  lemma PowerReadsTable(data: Document, o: string)
    ensures ReadsTable(data, Power(o))
  {
    var fields := AttributeFields(Power(o));
    ReadFieldsCons(data, o, fields[1..]);
    assert fields[1..][1..] == [];
    ReadFieldsCons(data, o, fields);
    var limit, mode := Lookup(data, o, "poweroutputLIMIT"), Lookup(data, o, "outputmode");
    if limit.Success? && mode.Success? {
      assert ReadFields(data, o, []) == Success(map[]);
      var m := map["power_limit" := limit.value] + (map["mode" := mode.value] + map[]);
      assert ReadFields(data, o, fields) == Success(m);
      assert m == map["power_limit" := limit.value, "mode" := mode.value];
    }
  }

  lemma InternalTempReadsTable(data: Document)
    ensures ReadsTable(data, InternalTemp)
  {
    var fields := AttributeFields(InternalTemp);
    assert fields[1..] == [];
    ReadFieldsCons(data, "system", fields);
    var v := Lookup(data, "system", "internaltempmax");
    if v.Success? {
      assert ReadFields(data, "system", []) == Success(map[]);
      assert ReadFields(data, "system", fields) == Success(map["max_temp" := v.value] + map[]);
      assert map["max_temp" := v.value] + map[] == map["max_temp" := v.value];
      assert Attributes(data, InternalTemp) == Success(Some(map["max_temp" := v.value]));
    }
  }

  /** Each sensor's attribute dictionary is exactly the fields its table lists,
      read in the listed order: it fails with the first missing one, and
      otherwise holds every listed field's value unchanged. */
  lemma AttributesFollowFieldTable(data: Document, e: Entity)
    ensures AttributeFields(e) == [] ==> Attributes(data, e) == Success(None)
    ensures AttributeFields(e) != [] ==> ReadsTable(data, e)
  {
    match e
    case Temperature(o) => TemperatureReadsTable(data, o);
    case Power(o) => PowerReadsTable(data, o);
    case InternalTemp => InternalTempReadsTable(data);
    case _ =>
  }

  /** Every attribute a sensor reports holds the stored value of the field its
      table names, unchanged. */
  lemma AttributesHoldFields(data: Document, e: Entity)
    ensures Attributes(data, e).Success? && Attributes(data, e).value.Some? ==>
      forall k :: 0 <= k < |AttributeFields(e)| ==>
        && SectionOf(e) in data && AttributeFields(e)[k].1 in data[SectionOf(e)]
        && AttributeFields(e)[k].0 in Attributes(data, e).value.value
        && Attributes(data, e).value.value[AttributeFields(e)[k].0] == data[SectionOf(e)][AttributeFields(e)[k].1]
  {
    AttributesFollowFieldTable(data, e);
    if AttributeFields(e) != [] && Attributes(data, e).Success? {
      AttributeNamesDistinct(e);
      ReadFieldsValues(data, SectionOf(e), AttributeFields(e));
    }
  }

  /** No sensor lists an attribute twice, so every attribute holds the field
      it names. */
  lemma AttributeNamesDistinct(e: Entity)
    ensures DistinctNames(AttributeFields(e))
  {
  }

  // ---------------------------------------------------------------------------
  // Fixed metadata

  datatype DeviceClass = TemperatureDevice | PowerDevice

  datatype StateClass = Measurement | Total

  datatype Unit = Fahrenheit | Percentage

  function DeviceClassOf(e: Entity): Option<DeviceClass> {
    match e
    case Temperature(_) => Some(TemperatureDevice)
    case Power(_) => Some(PowerDevice)
    case HighAlarm(_) => Some(TemperatureDevice)
    case LowAlarm(_) => Some(TemperatureDevice)
    case InternalTemp => Some(TemperatureDevice)
    case PowerResets => None
    case SafetyRelay => None
  }

  function StateClassOf(e: Entity): Option<StateClass> {
    match e
    case PowerResets => Some(Total)
    case SafetyRelay => None
    case _ => Some(Measurement)
  }

  function UnitOf(e: Entity): Option<Unit> {
    match e
    case Power(_) => Some(Percentage)
    case PowerResets => None
    case SafetyRelay => None
    case _ => Some(Fahrenheit)
  }

  /** Every temperature-class sensor reports degrees Fahrenheit and nothing
      else does; only the power sensor reports a percentage; the reset counter
      is the one running total and the safety relay the one sensor without a
      state class. */
  lemma MetadataAgrees(e: Entity)
    ensures DeviceClassOf(e) == Some(TemperatureDevice) <==> UnitOf(e) == Some(Fahrenheit)
    ensures UnitOf(e) == Some(Percentage) <==> e.Power?
    ensures StateClassOf(e) == Some(Total) <==> e.PowerResets?
    ensures StateClassOf(e) == None <==> e.SafetyRelay?
  {
  }
}
