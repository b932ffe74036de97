/** The integration's constants and static lookup tables. */
module Const {
  import opened Wrappers

  const DOMAIN := "teleinformation"

  // Configuration keys and connection types
  const CONF_NAME := "name"
  const CONF_CONNECTION_TYPE := "connection_type"
  const CONF_CONNECTION_TYPE_HTTP := "http"
  const CONF_CONNECTION_TYPE_LOCAL := "local"
  const CONF_LOCAL_SERIAL_PORT := "serial_port"
  const CONF_HTTP_URL := "url"
  const DEFAULT_NAME := "Linky"
  const DEFAULT_SERIAL_PORT := "/dev/ttyUSB0"

  // Error codes shown by the configuration forms
  const ERROR_SERIAL := "serial_error"
  const ERROR_DECODE := "decode_error"
  const ERROR_HTTP_FAILURE := "http_failure_error"
  const ERROR_HTTP_UNAUTHORIZED := "http_unauthorized_error"
  const ERROR_HTTP_DECODE := "http_decode_error"
  const ERROR_UNKNOWN := "unknown_error"

  /** Seconds between two polls. */
  const SCAN_INTERVAL := 10

  /** The exact top-level key set of a serial-teleinfo server's status document. */
  const EXPECTED_HTTP_KEYS: set<string> := {"connected", "values", "ready"}

  /** The reading holding the meter's unique address. */
  const TYPE_ADDRESS := "ADCO"

  /** Home Assistant sensor metadata, kept opaque. */
  datatype StateClass = StateClassMeasurement | StateClassTotalIncreasing
  datatype DeviceClass = DeviceClassEnergy | DeviceClassPower | DeviceClassCurrent
  datatype Unit = WattHour | VoltAmpere | Ampere

  /**
   * The keyword arguments a table entry adds to an entity description;
   * None stands for a key the entry's dict does not have.
   */
  datatype Descriptor = Descriptor(
    stateClass: Option<StateClass>,
    nativeUnit: Option<Unit>,
    deviceClass: Option<DeviceClass>)

  const SENSOR_INDEX_ENERGY := Descriptor(Some(StateClassTotalIncreasing), Some(WattHour), Some(DeviceClassEnergy))
  const SENSOR_APPARENT_POWER := Descriptor(Some(StateClassMeasurement), Some(VoltAmpere), Some(DeviceClassPower))
  const SENSOR_CURRENT := Descriptor(Some(StateClassMeasurement), Some(Ampere), Some(DeviceClassCurrent))
  const SENSOR_DEFAULT := Descriptor(None, None, None)

  /** Measurement code -> (label, descriptor). */
  const SENSOR_TYPES: map<string, (string, Descriptor)> := map[
    "BASE" := ("Base index", SENSOR_INDEX_ENERGY),
    "HCHC" := ("Off-peak index", SENSOR_INDEX_ENERGY),
    "HCHP" := ("Peak index", SENSOR_INDEX_ENERGY),
    "EJPHN" := ("Index (EJP)", SENSOR_INDEX_ENERGY),
    "EJPHPM" := ("Peak index (EJP)", SENSOR_INDEX_ENERGY),
    "GAZ" := ("Gaz index", SENSOR_DEFAULT),
    "AUTRE" := ("Other index", SENSOR_DEFAULT),
    "BBRHCJB" := ("Off-peak index (blue)", SENSOR_INDEX_ENERGY),
    "BBRHPJB" := ("Peak index (blue)", SENSOR_INDEX_ENERGY),
    "BBRHCJW" := ("Off-peak index (white)", SENSOR_INDEX_ENERGY),
    "BBRHPJW" := ("Peak index (white)", SENSOR_INDEX_ENERGY),
    "BBRHCJR" := ("Off-peak index (red)", SENSOR_INDEX_ENERGY),
    "BBRHPJR" := ("Peak index (red)", SENSOR_INDEX_ENERGY),
    "DEMAIN" := ("Tomorrow's color", SENSOR_DEFAULT),
    "IINST" := ("Instantaneous intensity", SENSOR_CURRENT),
    "IINST1" := ("Instantaneous intensity (phase 1)", SENSOR_CURRENT),
    "IINST2" := ("Instantaneous intensity (phase 2)", SENSOR_CURRENT),
    "IINST3" := ("Instantaneous intensity (phase 3)", SENSOR_CURRENT),
    "PAPP" := ("Apparent power", SENSOR_APPARENT_POWER)
  ]

  /** Meter code -> name of the meter entity's attribute. */
  const SENSOR_LINKY_ATTRIBUTES: map<string, string> := map[
    "ADCO" := "address",
    "OPTARIF" := "tariff_option",
    "PTEC" := "current_tariff",
    "MOTDETAT" := "status_word",
    "ISOUSC" := "subscribed_intensity",
    "PEJP" := "ejp_notice",
    "ADPS" := "intensity_warning_threshold",
    "IMAX" := "maximum_intensity_demand",
    "HHPHC" := "peak_hours_code",
    "IMAX1" := "maximum_intensity_demand_phase_1",
    "IMAX2" := "maximum_intensity_demand_phase_2",
    "IMAX3" := "maximum_intensity_demand_phase_3",
    "PMAX" := "maximal_power_3_phases"
  ]

  /** No two meter codes share an attribute name. */
  ghost predicate AttributeNamesDistinct() {
    forall c1, c2 :: c1 in SENSOR_LINKY_ATTRIBUTES && c2 in SENSOR_LINKY_ATTRIBUTES && c1 != c2 ==>
      SENSOR_LINKY_ATTRIBUTES[c1] != SENSOR_LINKY_ATTRIBUTES[c2]
  }

  lemma LinkyAttributesInjective()
    ensures AttributeNamesDistinct()
  {
  }

  /** The status document has exactly three top-level keys. */
  lemma ExpectedHttpKeysExact()
    ensures |EXPECTED_HTTP_KEYS| == 3
    ensures forall k :: k in EXPECTED_HTTP_KEYS <==> k == "connected" || k == "values" || k == "ready"
  {
    assert EXPECTED_HTTP_KEYS == {"connected"} + {"values"} + {"ready"};
  }

  /** The address code is a meter attribute named "address", never a measurement code. */
  lemma AddressIsMeterAttribute()
    ensures TYPE_ADDRESS in SENSOR_LINKY_ATTRIBUTES && SENSOR_LINKY_ATTRIBUTES[TYPE_ADDRESS] == "address"
    ensures TYPE_ADDRESS !in SENSOR_TYPES
  {
  }

  /** The meter identity and state codes carry no measurement. */
  lemma MeterStateCodesUnlisted()
    ensures "ADCO" !in SENSOR_TYPES && "OPTARIF" !in SENSOR_TYPES && "PTEC" !in SENSOR_TYPES && "MOTDETAT" !in SENSOR_TYPES
  {
  }

  /** The subscription codes carry no measurement. */
  lemma ContractCodesUnlisted()
    ensures "ISOUSC" !in SENSOR_TYPES && "PEJP" !in SENSOR_TYPES && "ADPS" !in SENSOR_TYPES && "HHPHC" !in SENSOR_TYPES
  {
  }

  /** The recorded maxima carry no measurement. */
  lemma MaximumCodesUnlisted()
    ensures "IMAX" !in SENSOR_TYPES && "IMAX1" !in SENSOR_TYPES && "IMAX2" !in SENSOR_TYPES && "IMAX3" !in SENSOR_TYPES && "PMAX" !in SENSOR_TYPES
  {
  }

  /** No code is both a measurement code and a meter attribute. */
  lemma TablesDisjoint()
    ensures SENSOR_TYPES.Keys !! SENSOR_LINKY_ATTRIBUTES.Keys
  {
    forall code | code in SENSOR_LINKY_ATTRIBUTES
      ensures code !in SENSOR_TYPES
    {
      if code == "ADCO" {
        MeterStateCodesUnlisted();
      } else if code == "OPTARIF" {
        MeterStateCodesUnlisted();
      } else if code == "PTEC" {
        MeterStateCodesUnlisted();
      } else if code == "MOTDETAT" {
        MeterStateCodesUnlisted();
      } else if code == "ISOUSC" {
        ContractCodesUnlisted();
      } else if code == "PEJP" {
        ContractCodesUnlisted();
      } else if code == "ADPS" {
        ContractCodesUnlisted();
      } else if code == "HHPHC" {
        ContractCodesUnlisted();
      } else if code == "IMAX" {
        MaximumCodesUnlisted();
      } else if code == "IMAX1" {
        MaximumCodesUnlisted();
      } else if code == "IMAX2" {
        MaximumCodesUnlisted();
      } else if code == "IMAX3" {
        MaximumCodesUnlisted();
      } else {
        assert code == "PMAX";
        MaximumCodesUnlisted();
      }
    }
  }

  /** The descriptor each measurement code uses. */
  lemma DescriptorAssignments()
    ensures forall code :: code in SENSOR_TYPES ==>
      SENSOR_TYPES[code].1 in {SENSOR_INDEX_ENERGY, SENSOR_APPARENT_POWER, SENSOR_CURRENT, SENSOR_DEFAULT}
    ensures forall code :: code in {"IINST", "IINST1", "IINST2", "IINST3"} ==>
      code in SENSOR_TYPES && SENSOR_TYPES[code].1 == SENSOR_CURRENT
    ensures "PAPP" in SENSOR_TYPES && SENSOR_TYPES["PAPP"].1 == SENSOR_APPARENT_POWER
    ensures forall code :: code in {"GAZ", "AUTRE", "DEMAIN"} ==>
      code in SENSOR_TYPES && SENSOR_TYPES[code].1 == SENSOR_DEFAULT
    ensures forall code :: code in SENSOR_TYPES && SENSOR_TYPES[code].1 == SENSOR_APPARENT_POWER ==> code == "PAPP"
  {
  }

  /** The six form error codes are pairwise distinct. */
  lemma ErrorCodesDistinct()
    ensures |{ERROR_SERIAL, ERROR_DECODE, ERROR_HTTP_FAILURE, ERROR_HTTP_UNAUTHORIZED, ERROR_HTTP_DECODE, ERROR_UNKNOWN}| == 6
  {
  }
}
