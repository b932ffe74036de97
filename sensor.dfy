/**
 * The sensor platform: which entities a meter's snapshot gives rise to, and what
 * each entity reports. Entities read the coordinator's shared state, which each
 * function takes as a parameter.
 */
module Sensor {
  import opened Wrappers
  import opened Data
  import opened Exceptions
  import opened Const
  import opened Teleinfo

  /** What entities read from their update coordinator. */
  datatype CoordinatorState = CoordinatorState(data: Values, lastUpdateSuccess: bool)

  /** The unit of a measurement entity: either a Home Assistant unit from the table, or the reported one. */
  datatype NativeUnit = TableUnit(unit: Unit) | ReportedUnit(reported: Json)

  /** `SensorEntityDescription` of a measurement entity. */
  datatype SensorDescription = SensorDescription(
    key: string,
    name: string,
    nativeUnit: NativeUnit,
    stateClass: Option<StateClass>,
    deviceClass: Option<DeviceClass>)

  /** The key of the meter entity. */
  const METER_KEY := "meter"

  datatype Entity =
    | LinkyEntity(basename: string, key: string, name: string)                  // the meter, a binary sensor
    | TeleinfoEntity(basename: string, key: string, description: SensorDescription) // one measurement

  /** `SENSOR_TYPES.get(key, (key, {}))`: the label and descriptor of a code. */
  function SensorType(key: string): (r: (string, Descriptor))
    ensures key in SENSOR_TYPES ==> r == SENSOR_TYPES[key]
    ensures key !in SENSOR_TYPES ==> r == (key, SENSOR_DEFAULT)
  {
    if key in SENSOR_TYPES then SENSOR_TYPES[key] else (key, SENSOR_DEFAULT)
  }

  /**
   * The description of a measurement entity: key, reported unit and name first,
   * then whatever the table's descriptor supplies replaces them.
   */
  function Describe(basename: string, key: string, reportedUnit: Json): (d: SensorDescription)
    ensures d.key == key
    ensures d.name == basename + " " + SensorType(key).0
    ensures d.stateClass == SensorType(key).1.stateClass && d.deviceClass == SensorType(key).1.deviceClass
    ensures SensorType(key).1.nativeUnit.None? ==> d.nativeUnit == ReportedUnit(reportedUnit)
    ensures SensorType(key).1.nativeUnit.Some? ==> d.nativeUnit == TableUnit(SensorType(key).1.nativeUnit.value)
  {
    var typeLabel := SensorType(key).0;
    var descriptor := SensorType(key).1;
    var base := SensorDescription(key, basename + " " + typeLabel, ReportedUnit(reportedUnit), None, None);
    // dict.update: each key the descriptor has overrides the base
    base.(
      nativeUnit := if descriptor.nativeUnit.Some? then TableUnit(descriptor.nativeUnit.value) else base.nativeUnit,
      stateClass := if descriptor.stateClass.Some? then descriptor.stateClass else base.stateClass,
      deviceClass := if descriptor.deviceClass.Some? then descriptor.deviceClass else base.deviceClass)
  }

  /** `LinkyEntity(coordinator, basename, key)`. */
  function NewLinkyEntity(basename: string, key: string): (e: Entity)
    ensures e.LinkyEntity? && e.basename == basename && e.key == key
    ensures e.name == basename + " Meter"
  {
    LinkyEntity(basename, key, basename + " Meter")
  }

  /** `TeleinfoEntity(coordinator, basename, key)`: reads the reported unit, so the key must be in the data. */
  function NewTeleinfoEntity(coordinator: CoordinatorState, basename: string, key: string): (r: Result<Entity, Exception>)
    ensures r.Err? <==> key !in Keys(coordinator.data)
    ensures r.Err? ==> r.error == KeyError(key)
    ensures r.Ok? ==> r.value.TeleinfoEntity? && r.value.basename == basename && r.value.key == key
    ensures r.Ok? ==> r.value.description == Describe(basename, key, Get(coordinator.data, key).value.unit)
  {
    match Get(coordinator.data, key)
    case None => Err(KeyError(key))
    case Some(reading) => Ok(TeleinfoEntity(basename, key, Describe(basename, key, reading.unit)))
  }

  /** A code that the meter entity reports as an attribute rather than as an entity of its own. */
  predicate IsMeterAttribute(code: string) {
    code in SENSOR_LINKY_ATTRIBUTES
  }

  /** The codes of a snapshot that become measurement entities, in snapshot order. */
  function MeasurementKeys(data: Values): (ks: seq<string>)
    ensures forall i :: 0 <= i < |ks| ==> ks[i] in Keys(data) && !IsMeterAttribute(ks[i])
    ensures |ks| <= |data|
  {
    if data == [] then []
    else
      var init := data[..|data| - 1];
      var last := data[|data| - 1].0;
      assert Keys(init) <= Keys(data) by {
        forall k | k in Keys(init) ensures k in Keys(data) {
          var i :| 0 <= i < |init| && init[i].0 == k;
          assert data[i].0 == k;
        }
      }
      MeasurementKeys(init) + (if IsMeterAttribute(last) then [] else [last])
  }

  /** The meter entity, then one measurement entity per code of `ks`, in order. */
  function EntityList(coordinator: CoordinatorState, basename: string, ks: seq<string>): (es: seq<Entity>)
    requires forall k :: k in ks ==> k in Keys(coordinator.data)
    ensures |es| == |ks| + 1
  {
    if ks == [] then [NewLinkyEntity(basename, METER_KEY)]
    else
      EntityList(coordinator, basename, ks[..|ks| - 1])
        + [NewTeleinfoEntity(coordinator, basename, ks[|ks| - 1]).value]
  }

  /** The entity list of a successful setup: the meter, then one entity per measurement code. */
  function Entities(coordinator: CoordinatorState, basename: string): (es: seq<Entity>)
  {
    EntityList(coordinator, basename, MeasurementKeys(coordinator.data))
  }

  /** The list starts with the meter entity, and entity `j + 1` is the measurement entity of code `j`. */
  lemma {:induction false} EntityListFollowsKeys(coordinator: CoordinatorState, basename: string, ks: seq<string>, j: nat)
    requires forall k :: k in ks ==> k in Keys(coordinator.data)
    requires j <= |ks|
    ensures EntityList(coordinator, basename, ks)[0] == NewLinkyEntity(basename, METER_KEY)
    ensures j < |ks| ==> NewTeleinfoEntity(coordinator, basename, ks[j]).Ok?
    ensures j < |ks| ==>
      EntityList(coordinator, basename, ks)[j + 1] == NewTeleinfoEntity(coordinator, basename, ks[j]).value
  {
    if ks != [] {
      var init := ks[..|ks| - 1];
      if j < |ks| - 1 {
        assert init[j] == ks[j];
        EntityListFollowsKeys(coordinator, basename, init, j);
      } else {
        EntityListFollowsKeys(coordinator, basename, init, 0);
      }
    }
  }

  /** Selecting from one more reading appends its code unless it is a meter attribute. */
  lemma MeasurementKeysSnoc(data: Values, i: nat)
    requires i < |data|
    ensures MeasurementKeys(data[..i + 1]) ==
      MeasurementKeys(data[..i]) + (if IsMeterAttribute(data[i].0) then [] else [data[i].0])
  {
    assert data[..i + 1][..i] == data[..i];
  }

  /** One more code gives one more measurement entity, at the end. */
  lemma EntityListSnoc(coordinator: CoordinatorState, basename: string, ks: seq<string>, k: string)
    requires forall k' :: k' in ks ==> k' in Keys(coordinator.data)
    requires k in Keys(coordinator.data)
    ensures EntityList(coordinator, basename, ks + [k]) ==
      EntityList(coordinator, basename, ks) + [NewTeleinfoEntity(coordinator, basename, k).value]
  {
    assert (ks + [k])[..|ks|] == ks;
  }

  /**
   * The platform's `async_setup_entry`, after the coordinator's first refresh:
   * refuse to set up without a successful refresh, else build the entity list.
   */
  method SetupEntry(entryData: map<string, string>, coordinator: CoordinatorState)
    returns (r: Result<seq<Entity>, Exception>)
    ensures CONF_NAME !in entryData ==> r == Err(KeyError(CONF_NAME))
    ensures CONF_NAME in entryData && !coordinator.lastUpdateSuccess ==> r == Err(PlatformNotReady)
    ensures CONF_NAME in entryData && coordinator.lastUpdateSuccess ==>
      r == Ok(Entities(coordinator, entryData[CONF_NAME]))
  {
    if CONF_NAME !in entryData {
      return Err(KeyError(CONF_NAME));
    }
    var name := entryData[CONF_NAME];
    if !coordinator.lastUpdateSuccess {
      return Err(PlatformNotReady);
    }
    var data := coordinator.data;
    var entities := [NewLinkyEntity(name, METER_KEY)];
    ghost var keys: seq<string> := [];
    for i := 0 to |data|
      invariant keys == MeasurementKeys(data[..i])
      invariant forall k :: k in keys ==> k in Keys(data)
      invariant entities == EntityList(coordinator, name, keys)
    {
      var key := data[i].0;
      MeasurementKeysSnoc(data, i);
      if !IsMeterAttribute(key) {
        assert key in Keys(data);
        var entity := NewTeleinfoEntity(coordinator, name, key);
        EntityListSnoc(coordinator, name, keys, key);
        entities := entities + [entity.value];
        keys := keys + [key];
      }
    }
    assert data[..|data|] == data;
    r := Ok(entities);
  }

  /** A code becomes a measurement entity exactly when the snapshot has it and it is no meter attribute. */
  lemma {:induction false} MeasurementKeysExactly(data: Values, k: string)
    ensures k in MeasurementKeys(data) <==> k in Keys(data) && !IsMeterAttribute(k)
  {
    if data != [] {
      var init := data[..|data| - 1];
      MeasurementKeysExactly(init, k);
      assert Keys(data) == Keys(init) + {data[|data| - 1].0} by {
        assert data == init + [data[|data| - 1]];
      }
    }
  }

  /** Measurement codes keep snapshot order: selecting from two parts is selecting from their concatenation. */
  lemma {:induction false} MeasurementKeysAppend(d1: Values, d2: Values)
    ensures MeasurementKeys(d1 + d2) == MeasurementKeys(d1) + MeasurementKeys(d2)
    decreases |d2|
  {
    if d2 == [] {
      assert d1 + d2 == d1;
    } else {
      var init2 := d2[..|d2| - 1];
      assert (d1 + d2)[..|d1 + d2| - 1] == d1 + init2;
      MeasurementKeysAppend(d1, init2);
    }
  }

  /** The meter's address never becomes a measurement entity. */
  lemma AddressIsNoMeasurement(data: Values)
    ensures TYPE_ADDRESS !in MeasurementKeys(data)
  {
    MeasurementKeysExactly(data, TYPE_ADDRESS);
  }

  /** The meter's address as the entities read it: `coordinator.data[TYPE_ADDRESS].value`. */
  function MeterId(coordinator: CoordinatorState): (r: Result<Json, Exception>)
    ensures r.Err? <==> TYPE_ADDRESS !in Keys(coordinator.data)
    ensures r.Err? ==> r.error == KeyError(TYPE_ADDRESS)
    ensures r.Ok? ==> Get(coordinator.data, TYPE_ADDRESS).value.value == r.value
  {
    match Get(coordinator.data, TYPE_ADDRESS)
    case None => Err(KeyError(TYPE_ADDRESS))
    case Some(reading) => Ok(reading.value)
  }

  /** `unique_id`: the meter's address and the entity's key, joined by a dash. */
  function UniqueId(e: Entity, coordinator: CoordinatorState): (r: Result<string, Exception>)
    ensures r.Err? <==> MeterId(coordinator).Err?
    ensures r.Err? ==> r.error == KeyError(TYPE_ADDRESS)
    ensures r.Ok? ==> r.value == Text(MeterId(coordinator).value) + "-" + e.key
  {
    match MeterId(coordinator)
    case Err(err) => Err(err)
    case Ok(meterId) => Ok(Text(meterId) + "-" + e.key)
  }

  /** Two entities of one meter with different keys never share a unique id. */
  lemma UniqueIdsDiffer(e1: Entity, e2: Entity, coordinator: CoordinatorState)
    requires e1.key != e2.key
    requires MeterId(coordinator).Ok?
    ensures UniqueId(e1, coordinator).value != UniqueId(e2, coordinator).value
  {
    var prefix := Text(MeterId(coordinator).value) + "-";
    var u1, u2 := prefix + e1.key, prefix + e2.key;
    assert u1[|prefix|..] == e1.key;
    assert u2[|prefix|..] == e2.key;
  }

  /** `device_info`: the device the entity belongs to. */
  datatype DeviceInfo = DeviceInfo(identifiers: set<(string, Json)>, name: string)

  /** Building the identifier set hashes the address, which fails for a list or dict. */
  function GetDeviceInfo(e: Entity, coordinator: CoordinatorState): (r: Result<DeviceInfo, Exception>)
    ensures r.Ok? <==> MeterId(coordinator).Ok? && Hashable(MeterId(coordinator).value)
    ensures MeterId(coordinator).Err? ==> r == Err(KeyError(TYPE_ADDRESS))
    ensures MeterId(coordinator).Ok? && !Hashable(MeterId(coordinator).value) ==> r == Err(TypeError)
    ensures r.Ok? ==> r.value.identifiers == {(DOMAIN, MeterId(coordinator).value)} && r.value.name == e.basename
  {
    match MeterId(coordinator)
    case Err(err) => Err(err)
    case Ok(meterId) =>
      if Hashable(meterId) then Ok(DeviceInfo({(DOMAIN, meterId)}, e.basename)) else Err(TypeError)
  }

  /** All entities of one coordinator are grouped under the same device. */
  lemma OneDevicePerMeter(e1: Entity, e2: Entity, coordinator: CoordinatorState)
    requires GetDeviceInfo(e1, coordinator).Ok?
    ensures GetDeviceInfo(e2, coordinator).Ok?
    ensures GetDeviceInfo(e1, coordinator).value.identifiers == GetDeviceInfo(e2, coordinator).value.identifiers
  {
  }

  /** `available`, of every entity. */
  function Available(e: Entity, coordinator: CoordinatorState): (a: bool)
    ensures a <==> coordinator.lastUpdateSuccess
  {
    coordinator.lastUpdateSuccess
  }

  /** `is_on`, of the meter entity. */
  function IsOn(coordinator: CoordinatorState): (on: bool)
    ensures on <==> coordinator.lastUpdateSuccess
  {
    coordinator.lastUpdateSuccess
  }

  /** The meter is on exactly when the entities are available, both following the last update's success. */
  lemma MeterOnIffAvailable(e: Entity, coordinator: CoordinatorState)
    ensures IsOn(coordinator) == Available(e, coordinator) == coordinator.lastUpdateSuccess
  {
  }

  /** `extra_state_attributes`: attribute name -> value, for the meter codes present in the data. */
  function ExtraStateAttributes(coordinator: CoordinatorState): (attrs: map<string, Json>)
    ensures forall name :: name in attrs <==>
      exists code :: code in SENSOR_LINKY_ATTRIBUTES && SENSOR_LINKY_ATTRIBUTES[code] == name
        && code in Keys(coordinator.data)
    ensures forall code :: code in SENSOR_LINKY_ATTRIBUTES && code in Keys(coordinator.data) ==>
      SENSOR_LINKY_ATTRIBUTES[code] in attrs
        && attrs[SENSOR_LINKY_ATTRIBUTES[code]] == Get(coordinator.data, code).value.value
  {
    LinkyAttributesInjective();
    map code | code in SENSOR_LINKY_ATTRIBUTES && code in Keys(coordinator.data) ::
      SENSOR_LINKY_ATTRIBUTES[code] := Get(coordinator.data, code).value.value
  }

  /** `native_value`: the current value of the entity's code. */
  function NativeValue(e: Entity, coordinator: CoordinatorState): (r: Result<Json, Exception>)
    ensures r.Err? <==> e.key !in Keys(coordinator.data)
    ensures r.Err? ==> r.error == KeyError(e.key)
    ensures r.Ok? ==> exists i :: 0 <= i < |coordinator.data| && coordinator.data[i] == (e.key, Reading(r.value, coordinator.data[i].1.unit))
  {
    match Get(coordinator.data, e.key)
    case None => Err(KeyError(e.key))
    case Some(reading) => Ok(reading.value)
  }

  /** A code the table does not know keeps its own name as label, the reported unit and no classes. */
  lemma UnknownCodeFallsBack(basename: string, key: string, reportedUnit: Json)
    requires key !in SENSOR_TYPES
    ensures Describe(basename, key, reportedUnit) ==
      SensorDescription(key, basename + " " + key, ReportedUnit(reportedUnit), None, None)
  {
  }

  /** The table's unit overrides whatever unit the meter reports. */
  lemma TableUnitOverridesReported(basename: string, key: string, u1: Json, u2: Json)
    requires key in SENSOR_TYPES && SENSOR_TYPES[key].1.nativeUnit.Some?
    ensures Describe(basename, key, u1) == Describe(basename, key, u2)
    ensures Describe(basename, key, u1).nativeUnit == TableUnit(SENSOR_TYPES[key].1.nativeUnit.value)
  {
  }

  /**
   * A single-phase meter's snapshot: its address, an instantaneous current in amperes and an
   * apparent power in volt-amperes, the address being reported without a unit.
   */
  function Snapshot(address: string, current: Json, power: Json): (d: Values)
    ensures |d| == 3 && d[0].0 == "ADCO" && d[1].0 == "IINST" && d[2].0 == "PAPP"
  {
    [("ADCO", Reading(Str(address), Str(""))),
     ("IINST", Reading(current, Str("A"))),
     ("PAPP", Reading(power, Str("VA")))]
  }

  lemma ExampleMeasurementKeys(address: string, current: Json, power: Json)
    ensures MeasurementKeys(Snapshot(address, current, power)) == ["IINST", "PAPP"]
  {
    var d := Snapshot(address, current, power);
    assert d[..|d| - 1] == d[..2];
    assert d[..2][..1] == d[..1];
    assert d[..1][..0] == [];
    assert !IsMeterAttribute("IINST") && !IsMeterAttribute("PAPP") && IsMeterAttribute("ADCO");
    assert MeasurementKeys(d[..1]) == [];
    assert MeasurementKeys(d[..2]) == ["IINST"];
  }

  lemma ExampleKeys(address: string, current: Json, power: Json)
    ensures Keys(Snapshot(address, current, power)) == {"ADCO", "IINST", "PAPP"}
  {
  }

  lemma ExampleAttributeCodes(address: string, current: Json, power: Json)
    ensures forall code ::
      (code in SENSOR_LINKY_ATTRIBUTES && code in Keys(Snapshot(address, current, power))) <==> code == "ADCO"
  {
    ExampleKeys(address, current, power);
    assert "IINST" !in SENSOR_LINKY_ATTRIBUTES;
    assert "PAPP" !in SENSOR_LINKY_ATTRIBUTES;
  }

  /** The meter entity of such a snapshot carries the address and nothing else. */
  lemma ExampleAttributes(address: string, current: Json, power: Json)
    ensures ExtraStateAttributes(CoordinatorState(Snapshot(address, current, power), true))
      == map["address" := Str(address)]
  {
    var d := Snapshot(address, current, power);
    ExampleAttributeCodes(address, current, power);
    var attrs := ExtraStateAttributes(CoordinatorState(d, true));
    assert SENSOR_LINKY_ATTRIBUTES["ADCO"] == "address";
    assert Get(d, "ADCO") == Some(d[0].1);
    assert attrs.Keys == {"address"};
  }

  /** The measurement entity of reading `i`, with the unit the snapshot reports for it. */
  lemma ExampleMeasurement(basename: string, address: string, current: Json, power: Json, i: nat)
    requires 1 <= i < 3
    ensures var d := Snapshot(address, current, power);
      NewTeleinfoEntity(CoordinatorState(d, true), basename, d[i].0)
        == Ok(TeleinfoEntity(basename, d[i].0, Describe(basename, d[i].0, d[i].1.unit)))
  {
    var d := Snapshot(address, current, power);
    assert d[1..][0] == d[1] && d[1..][1..][0] == d[2];
    assert Get(d, d[i].0) == Some(d[i].1);
  }

  /** An instantaneous current is described as a current in amperes, a measurement. */
  lemma ExampleCurrentDescription(basename: string, reported: Json)
    ensures Describe(basename, "IINST", reported) == SensorDescription("IINST", basename + " " + "Instantaneous intensity",
      TableUnit(Ampere), Some(StateClassMeasurement), Some(DeviceClassCurrent))
  {
    assert SENSOR_TYPES["IINST"] == ("Instantaneous intensity", SENSOR_CURRENT);
  }

  /** An apparent power is described as a power in volt-amperes, a measurement. */
  lemma ExamplePowerDescription(basename: string, reported: Json)
    ensures Describe(basename, "PAPP", reported) == SensorDescription("PAPP", basename + " " + "Apparent power",
      TableUnit(VoltAmpere), Some(StateClassMeasurement), Some(DeviceClassPower))
  {
    assert SENSOR_TYPES["PAPP"] == ("Apparent power", SENSOR_APPARENT_POWER);
  }

  /**
   * An address, a current and an apparent power: the meter entity, then the two measurements
   * (whose descriptions ExampleCurrentDescription and ExamplePowerDescription spell out).
   */
  lemma ExampleProjection(basename: string, address: string, current: Json, power: Json)
    ensures var es := Entities(CoordinatorState(Snapshot(address, current, power), true), basename);
      && |es| == 3
      && es[0] == LinkyEntity(basename, "meter", basename + " Meter")
      && es[1] == TeleinfoEntity(basename, "IINST", Describe(basename, "IINST", Str("A")))
      && es[2] == TeleinfoEntity(basename, "PAPP", Describe(basename, "PAPP", Str("VA")))
  {
    var d := Snapshot(address, current, power);
    var c := CoordinatorState(d, true);
    var ks := MeasurementKeys(d);
    ExampleMeasurementKeys(address, current, power);
    EntityListFollowsKeys(c, basename, ks, 0);
    EntityListFollowsKeys(c, basename, ks, 1);
    ExampleMeasurement(basename, address, current, power, 1);
    ExampleMeasurement(basename, address, current, power, 2);
    assert d[1].1.unit == Str("A") && d[2].1.unit == Str("VA");
  }

  /** The meter entity's unique id is its address followed by `-meter`. */
  lemma ExampleUniqueId(basename: string, address: string, current: Json, power: Json)
    ensures UniqueId(NewLinkyEntity(basename, METER_KEY), CoordinatorState(Snapshot(address, current, power), true))
      == Ok(address + "-" + "meter")
  {
    var d := Snapshot(address, current, power);
    assert Get(d, TYPE_ADDRESS) == Some(d[0].1);
    assert Text(Str(address)) == address;
  }
}
