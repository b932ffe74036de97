# Teleinformation integration — a Dafny model

This project models the decision logic of the `teleinformation` Home Assistant integration. The integration publishes the readings of a French electricity meter (its "teleinformation" stream) as sensor entities. It gets a snapshot of readings in one of two ways: from a background serial reader, or from the `status.json` document of a companion serial-teleinfo HTTP server. The model covers:

- **Status document handling** (`teleinfo.dfy`, module `Teleinfo`). Building the status URL. Refusing any document whose top-level key set is not exactly `{connected, values, ready}`. Converting each `values` entry into a `(value, unit)` reading.
- **Polling** (`Teleinfo`). The local poll waits until the reader is ready. The HTTP poll refetches the same URL until the document says it is ready. Both are bounded by a deadline.
- **The per-entry registry** (`Teleinfo.Registry`). Setup inserts an entry holding the coordinator and, for a local connection, a started worker. Unload stops that worker if there is one and removes the entry.
- **Entity projection** (`sensor.dfy`, module `Sensor`). The meter entity and its attributes. One measurement entity per remaining code. Unique ids and the device grouping derived from the `ADCO` address reading. The table descriptor merged over the reported unit.
- **The configuration flow** (`config_flow.dfy`, module `Flow`). The user step, then a serial or HTTP step that probes the connection. The flow's `config` dictionary. The two exception-to-error-code chains, where the first matching clause wins.
- **Constants and tables** (`const.dfy`, module `Const`), with lemmas about the tables.

Shared types live in `wrappers.dfy` (Option, Result), `data.dfy` (parsed JSON values, Python dict lookup, truthiness and `str()`) and `exceptions.dfy` (the exceptions and the part of their class hierarchy that the `except` clauses distinguish).

The model replaces I/O with parameters:

- An HTTP server is a function `Server = string -> Response`: the parsed body, or the HTTP client's error, that a GET of each URL returns.
- A poll receives one `Server` per request it may make, or one observation of the serial reader per check. The length of that sequence is the deadline: when it runs out, the poll fails with `TimeoutError`.
- The serial probe of the configuration flow is a function from port to the exception raised, if any.

Python values are immutable in Dafny. So the fact that the source decodes a shallow copy of the payload holds by construction: the input is never changed.

## Model

| member | source | states |
|---|---|---|
| `Teleinfo.StatusUrl` | custom_components/teleinformation/__init__.py:39-42 | the URL starts with the base URL, ends in `/status.json`, and adds a `/` exactly when the base lacks a trailing one |
| `Teleinfo.TrailingSlashIrrelevant` | custom_components/teleinformation/__init__.py:39-42 | a base URL `u` without a trailing slash and `u + "/"` give the same status URL |
| `Teleinfo.ToReading` | custom_components/teleinformation/__init__.py:56 | unpacking succeeds exactly for iterables of two elements: a two-item list gives its items, a two-character string its characters, a two-key dict its keys; anything else raises TypeError |
| `Teleinfo.ConvertValues` | custom_components/teleinformation/__init__.py:55-58 | on success the result has the input's codes, in order, each with its unpacked pair; it fails with TypeError iff some value cannot be unpacked |
| `Teleinfo.IsStatusDocument` | custom_components/teleinformation/__init__.py:50 | a body passes the shape check iff it is a dict whose keys are exactly `connected`, `values` and `ready`, no more and no fewer |
| `Teleinfo.Decode` | custom_components/teleinformation/__init__.py:50-58 | a non-dict or a key set other than EXPECTED_HTTP_KEYS raises TeleinfoException; a non-dict `values` raises AttributeError; otherwise the document is accepted iff every `values` entry unpacks, a failing entry raising TypeError; an accepted document keeps `connected` and `ready` and converts `values` |
| `Teleinfo.DecodeRefusesOtherKeySets` | custom_components/teleinformation/__init__.py:50-51 | a document missing a required key, or having an extra key, is refused with TeleinfoException |
| `Teleinfo.DecodeEncodedMembers` | custom_components/teleinformation/__init__.py:50-60 | a document with exactly the three keys, in any order, whose `values` are [value, unit] pairs, is accepted and decodes to the status it encodes |
| `Teleinfo.DecodeEncode` | custom_components/teleinformation/__init__.py:50-60 | the document Encode writes for a status is accepted and decodes back to that status |
| `Teleinfo.Request` | custom_components/teleinformation/__init__.py:38-60 | the request asks for the status URL of the given base; a client error propagates unchanged, a body is decoded |
| `Teleinfo.LocalOutcomeIsFirstReady` | custom_components/teleinformation/__init__.py:74-79 | the local poll returns values iff the reader is seen ready before the deadline, and then the values of the first ready observation; otherwise TimeoutError |
| `Teleinfo.PollLocal` | custom_components/teleinformation/__init__.py:74-79 | the waiting loop computes exactly the local poll outcome |
| `Teleinfo.RetryTimesOut` | custom_components/teleinformation/__init__.py:83-91 | if every request before the deadline gets a not-ready document, the poll fails with TimeoutError |
| `Teleinfo.RetryAtFirstAnswer` | custom_components/teleinformation/__init__.py:83-91 | the first request that errs or gets a ready document decides the poll: its error, or its values; the not-ready answers before it do not matter |
| `Teleinfo.RetryOkIsReady` | custom_components/teleinformation/__init__.py:83-91 | values are only returned from a fetched document whose `ready` is true, and they are that document's values |
| `Teleinfo.HttpOutcomeAsksOnlyStatusUrl` | custom_components/teleinformation/__init__.py:85-89 | every request of the poll, retries included, goes to the configured URL: servers agreeing on that URL give the same outcome |
| `Teleinfo.PollHttp` | custom_components/teleinformation/__init__.py:83-91 | the fetch-and-retry loop computes exactly the HTTP poll outcome, refetching the configured URL |
| `Teleinfo.RetryAsWritten` | custom_components/teleinformation/__init__.py:85-91 | the loop as written agrees with refetching the configured URL whenever the first answer decides or no second request fits in the deadline; once a not-ready document is followed by another request, it fails with TypeError |
| `Teleinfo.RetryWithoutUrlFails` | custom_components/teleinformation/__init__.py:86-89 | for any two answers where the first document is not ready and the second is, the retry as written fails with TypeError while refetching the configured URL returns the second document's values |
| `Teleinfo.ParseEntry` | custom_components/teleinformation/__init__.py:65-94 | a missing connection type raises KeyError; a local entry needs its serial port, an http entry its URL, a missing one raising KeyError for that key; any other connection type raises "Invalid connection type" |
| `Teleinfo.Registry.constructor` | custom_components/teleinformation/__init__.py:31-34 | the domain's registry starts empty |
| `Teleinfo.Registry.SetupEntry` | custom_components/teleinformation/__init__.py:63-108 | on error nothing is registered; otherwise exactly `entry_id` is (re)bound, to a fresh started worker on the port for local or to no worker for http, with a coordinator that polls that worker or URL every SCAN_INTERVAL seconds |
| `Teleinfo.Registry.UnloadEntry` | custom_components/teleinformation/__init__.py:117-126 | an unknown entry raises KeyError; otherwise exactly that entry is removed, and its worker, if it has one, is stopped exactly once |
| `Teleinfo.ValueUpdater.constructor` | custom_components/teleinformation/__init__.py:70 | a new worker reads the entry's serial port and is not yet running, never stopped |
| `Teleinfo.ValueUpdater.Start` | custom_components/teleinformation/__init__.py:71 | starting a worker leaves it running, its stop count unchanged |
| `Teleinfo.ValueUpdater.Stop` | custom_components/teleinformation/__init__.py:122-124 | stopping a worker leaves it not running and counts one more stop |
| `Sensor.SensorType` | custom_components/teleinformation/sensor.py:125 | a code's label and descriptor come from SENSOR_TYPES, or are the code itself and no metadata |
| `Sensor.Describe` | custom_components/teleinformation/sensor.py:125-134 | the name is `"<basename> <label>"`; the table's unit, state class and device class override the reported unit and the defaults when the entry has them |
| `Sensor.UnknownCodeFallsBack` | custom_components/teleinformation/sensor.py:125-131 | a code missing from the table is named after itself and keeps the reported unit, with no classes |
| `Sensor.TableUnitOverridesReported` | custom_components/teleinformation/sensor.py:125-131 | when the table gives a unit, the reported unit has no effect on the description |
| `Sensor.NewLinkyEntity` | custom_components/teleinformation/sensor.py:93-103 | the meter entity keeps basename and key and is named `"<basename> Meter"` |
| `Sensor.NewTeleinfoEntity` | custom_components/teleinformation/sensor.py:118-134 | a measurement entity needs its code in the data (else KeyError) and is described from the code's reported unit |
| `Sensor.MeasurementKeys` | custom_components/teleinformation/sensor.py:54-57 | the selected codes are snapshot codes that are not meter attributes |
| `Sensor.MeasurementKeysExactly` | custom_components/teleinformation/sensor.py:54-57 | a code gets a measurement entity iff the snapshot has it and it is not in SENSOR_LINKY_ATTRIBUTES |
| `Sensor.MeasurementKeysAppend` | custom_components/teleinformation/sensor.py:54-57 | selection keeps snapshot order: selecting from a concatenation is concatenating the selections |
| `Sensor.AddressIsNoMeasurement` | custom_components/teleinformation/sensor.py:54-57 | the `ADCO` address never becomes a measurement entity |
| `Sensor.EntityListFollowsKeys` | custom_components/teleinformation/sensor.py:54-57 | the entity list starts with the meter entity, and its entry `j + 1` is the measurement entity of the `j`-th selected code, which exists |
| `Sensor.SetupEntry` | custom_components/teleinformation/sensor.py:46-59 | without a name KeyError; after an unsuccessful first refresh PlatformNotReady and no entities; otherwise the meter entity, then one measurement entity per selected code in snapshot order |
| `Sensor.MeterId` | custom_components/teleinformation/sensor.py:65 | the meter id is the value of the `ADCO` reading, KeyError when there is none |
| `Sensor.UniqueId` | custom_components/teleinformation/sensor.py:63-67 | the unique id is the meter id as text, a dash, and the entity's key |
| `Sensor.UniqueIdsDiffer` | custom_components/teleinformation/sensor.py:63-67 | two entities of one meter with different keys have different unique ids |
| `Sensor.GetDeviceInfo` | custom_components/teleinformation/sensor.py:77-82 | the device is identified by `(DOMAIN, meter id)` and named after the basename; a missing address raises KeyError, and a list or dict address raises TypeError when the identifier set hashes it |
| `Sensor.OneDevicePerMeter` | custom_components/teleinformation/sensor.py:77-82 | when one entity of a coordinator has device info, every entity of it does, with the same identifiers |
| `Sensor.Available` | custom_components/teleinformation/sensor.py:73-75 | every entity, meter or measurement, is available exactly when the coordinator's last update succeeded |
| `Sensor.IsOn` | custom_components/teleinformation/sensor.py:105-107 | the meter entity is on exactly when the coordinator's last update succeeded |
| `Sensor.MeterOnIffAvailable` | custom_components/teleinformation/sensor.py:73-107 | `is_on` of the meter and `available` of every entity both equal the coordinator's last update success |
| `Sensor.ExtraStateAttributes` | custom_components/teleinformation/sensor.py:109-115 | the attributes are exactly the human names of the meter codes present in the data, each mapped to that code's value |
| `Sensor.NativeValue` | custom_components/teleinformation/sensor.py:136-138 | a measurement's value is the current value of its code in the data, KeyError once the code is gone |
| `Sensor.ExampleMeasurementKeys` | custom_components/teleinformation/sensor.py:53-55 | for such a snapshot the measurement codes are IINST then PAPP |
| `Sensor.ExampleAttributeCodes` | custom_components/teleinformation/sensor.py:109-115 | of such a snapshot's codes, only ADCO is a meter attribute |
| `Sensor.ExampleAttributes` | custom_components/teleinformation/sensor.py:109-115 | for such a snapshot the meter's attributes are `address`, mapped to the reported address, alone |
| `Sensor.ExampleMeasurement` | custom_components/teleinformation/sensor.py:118-134 | the IINST and PAPP readings of such a snapshot give measurement entities described with their reported units |
| `Sensor.ExampleProjection` | custom_components/teleinformation/sensor.py:54-57 | for such a snapshot and any name, the entities are the meter named `"<name> Meter"`, then IINST in amperes and PAPP in volt-amperes |
| `Sensor.ExampleCurrentDescription` | custom_components/teleinformation/sensor.py:125-134 | under any name and whatever unit is reported, IINST is described as a current in amperes, a measurement |
| `Sensor.ExamplePowerDescription` | custom_components/teleinformation/sensor.py:125-134 | under any name and whatever unit is reported, PAPP is described as a power in volt-amperes, a measurement |
| `Sensor.ExampleUniqueId` | custom_components/teleinformation/sensor.py:63-67 | the meter entity of a meter with address `a` has unique id `a-meter` |
| `Flow.ClassifyLocal` | custom_components/teleinformation/config_flow.py:89-97 | a serial failure gives serial_error, a teleinfo failure decode_error, anything else unknown_error |
| `Flow.ClassifyLocalIsFirstMatch` | custom_components/teleinformation/config_flow.py:89-97 | the serial step's code is that of the first `except` clause catching the exception |
| `Flow.ClassifyHttp` | custom_components/teleinformation/config_flow.py:118-142 | payload or teleinfo failures give http_decode_error; only a 401 response gives http_unauthorized_error; exceptions caught by no clause give unknown_error; the rest give http_failure_error |
| `Exceptions.FirstCaught` | custom_components/teleinformation/config_flow.py:118-142 | `except` resolution: the index of the first clause whose class the exception is an instance of, no earlier clause matching |
| `Flow.HttpHandlerCode` | custom_components/teleinformation/config_flow.py:118-142 | the payload and teleinfo handlers give http_decode_error; only the response handler with status 401 gives http_unauthorized_error; only the bare `except:` gives unknown_error; every other handler gives http_failure_error |
| `Flow.ClassifyHttpIsFirstMatch` | custom_components/teleinformation/config_flow.py:118-142 | the HTTP step's code is that of the first `except` clause catching the exception |
| `Flow.ConnectionTimeoutIsFailure` | custom_components/teleinformation/config_flow.py:124-139 | a connection error that is also a timeout is caught by the connection clause first |
| `Flow.HttpStatusProbe` | custom_components/teleinformation/config_flow.py:127-133 | a probe answered with status 401 asks for credentials; any other error status is a failure |
| `Flow.CreatedEntryIsSetUp` | custom_components/teleinformation/config_flow.py:60-117 | the data of an entry the flow creates selects the connection it was created for |
| `Flow.ConfigFlow.constructor` | custom_components/teleinformation/config_flow.py:55-57 | the flow starts with an empty config |
| `Flow.ConfigFlow.StepUser` | custom_components/teleinformation/config_flow.py:59-74 | no input shows the "user" form and keeps config; local or http input is merged into config and shows that mode's empty form; any other type raises "Invalid mode" and keeps config |
| `Flow.ConfigFlow.StepModeLocal` | custom_components/teleinformation/config_flow.py:76-105 | no input shows the form with no errors; a failed probe keeps config and reports exactly the port field with its classified code; a successful probe merges the input and creates the entry titled by the name, with config as data |
| `Flow.ConfigFlow.StepModeHttp` | custom_components/teleinformation/config_flow.py:107-149 | the same for the URL field, the probe being the status request and the code its HTTP classification |
| `Const.ExpectedHttpKeysExact` | custom_components/teleinformation/const.py:35 | the status document has exactly the keys connected, values and ready |
| `Const.AddressIsMeterAttribute` | custom_components/teleinformation/const.py:42-86 | `ADCO` is a meter attribute named "address" and no measurement code |
| `Const.TablesDisjoint` | custom_components/teleinformation/const.py:62-98 | no code is both a measurement code and a meter attribute |
| `Const.LinkyAttributesInjective` | custom_components/teleinformation/const.py:85-98 | no two meter codes share an attribute name |
| `Const.DescriptorAssignments` | custom_components/teleinformation/const.py:44-82 | each code uses one of the four descriptors: IINST* current, PAPP alone apparent power, GAZ, AUTRE and DEMAIN the empty default |
| `Const.ErrorCodesDistinct` | custom_components/teleinformation/const.py:26-31 | the six form error codes are pairwise distinct |

## Left out

- HTTP transport: the aiohttp session, the GET with its 10-second client timeout, `raise_for_status` and JSON decoding. They are replaced by the `Server` function, which gives either a parsed body or the exception the client raised.
- The serial port, `serial_teleinfo.Client`, and `ValueUpdater` internals. The reader is seen as a sequence of `(ready, values)` observations. Its lifecycle is modelled as a running flag and a stop counter. The set-up probe is a function from port to the exception it raised.
- `asyncio.sleep`, `async_timeout` and wall-clock time. The deadline (CONNECT_TIMEOUT seconds, with a one-second pause between attempts) is replaced by the number of observations or requests a poll may make.
- The coordinator framework: `DataUpdateCoordinator` scheduling, `async_refresh`, listeners, `async_write_ha_state`, the entities' `async_update` (sensor.py:89-90), and `should_poll`. The sensor platform's setup receives the coordinator state after its first refresh.
- Host wiring: the forwarding of entry setup and unload to the platform, and `async_setup_platform` with its import flow.
- The voluptuous schemas and their defaults. Step inputs are typed records. DEFAULT_NAME and DEFAULT_SERIAL_PORT are present as constants but are never applied.
- Logging. The values of Home Assistant's unit, state-class and device-class constants are opaque enumerations. The meter entity's `device_class` argument is also left out.
- JSON numbers with a fraction. Python's quoting and escaping of strings in `repr` is also left out: a string inside a list or dict renders between single quotes, unescaped.
- Sensor.ExtraStateAttributes: returns an unordered map, so the order of the attribute dict, which follows SENSOR_LINKY_ATTRIBUTES, is not modelled.
- Flow.ConfigFlow.StepModeLocal: the created entry's data is a copy of config, so Python's aliasing of `data` with `self.config` is not modelled.
- Teleinfo.Registry.SetupEntry: setting up an entry id that is already registered replaces its registry entry, as the source does. The replaced worker is still running but is no longer reachable, and the model does not track it.
- Parsed JSON objects are association lists in insertion order. A dict built by Python has no repeated key, but the model does not enforce this. Lookups take the first match.

## Findings

| source | as written | input that shows it | evidently intended | confidence | as-written member | corrected member |
|---|---|---|---|---|---|---|
| custom_components/teleinformation/__init__.py:89 | the retry calls `async_request_serial_teleinfo()` without the URL, which raises TypeError | an HTTP poll whose first status document has `ready` false and whose next one is ready | refetch the status document of the configured URL until it is ready | not executed | `Teleinfo.RetryWithoutUrlFails` (on `Teleinfo.RetryAsWritten`) | `Teleinfo.PollHttp` (with `Teleinfo.RetryAtFirstAnswer`, `Teleinfo.HttpOutcomeAsksOnlyStatusUrl`) |
