# Spyder thermostat sensors

The Spyder thermostat integration for Home Assistant polls a controller's
`/rawstatus` JSON document. That document holds a `"system"` section and one
`"output<i>"` section for each output. From the first document the integration
builds the list of sensor entities it registers, and each entity then shows a
reading of the current document.

This project models that core. It covers:

- **The setup loop.** Outputs `1..numberofoutputs` are visited in order. An
  output whose `outputmode` is `"Disabled"` is skipped. Every other output gets
  a temperature, power, high-alarm and low-alarm sensor. The internal
  temperature, power resets and safety relay sensors come last. A missing key,
  or an output count that is not an integer, raises before the registration
  callback is called.
- **The seven sensor kinds.** For each kind the model gives the fixed unique
  id, the display name (built from the output's nickname), the native value
  and the extra state attributes.

Files:

- `decimal.dfy`: Python's `str()` of an integer, as used by `f"output{i}"`,
  with the parse that inverts it.
- `document.dfy`: the status document (`map<string, map<string, Value>>`),
  Python's `KeyError` and `TypeError` as a `Result`, and the `str()` an
  f-string applies to a reading.
- `sensors.dfy`: the entity datatype and the projections `unique_id`, `name`,
  `native_value` and `extra_state_attributes`, plus the fixed device class,
  state class and unit.
- `setup.dfy`: the setup loop. `Setup` is the specification function and
  `SetupEntry` is the loop as written, proved equal to it.
- `setup_properties.dfy`: what the list built at setup looks like: its length,
  order, which outputs it includes, when it fails, distinct entities and ids,
  and a worked one-output example.

The source reads a value from the document by subscripting twice,
`data[section][field]`. When a key is missing this raises `KeyError`, and the
model returns `Failure(KeyError(key))` for the key Python reports first: the
section key before the field key. The loop bound `numberofoutputs + 1`
accepts an integer or a boolean (`True` counts as 1, `False` as 0). For any
other value, `+ 1` raises `TypeError`, or `range()` does for a float.

## Model

| member | source | states |
|---|---|---|
| Decimal.NatToString | custom_components/spyder_thermostat/sensor.py:65 | the decimal text of an index is non-empty digits, has no leading zero, and is "0" only for 0 |
| Decimal.ParseNatToString | custom_components/spyder_thermostat/sensor.py:65 | reading back the decimal text of an index gives the index again |
| Decimal.NatToStringInjective | custom_components/spyder_thermostat/sensor.py:65 | different indices have different decimal texts |
| SensorSetup.OutputKey | custom_components/spyder_thermostat/sensor.py:65 | the key of output i is "output" followed by decimal digits that read back as i, with no leading zero for i > 0 |
| SensorSetup.OutputKeyInjective | custom_components/spyder_thermostat/sensor.py:65 | different outputs get different keys |
| SensorSetup.OutputCount | custom_components/spyder_thermostat/sensor.py:64 | the loop's upper end is the stored integer n itself, 1 for True and 0 for False; KeyError("system") when the section is missing and KeyError("numberofoutputs") when the field is missing; TypeError for any other value |
| SensorSetup.SetupEntry | custom_components/spyder_thermostat/sensor.py:60-81 | the loop returns exactly what the specification function Setup gives: the same entity list or the same exception |
| SensorSetup.BlocksFailurePersists | custom_components/spyder_thermostat/sensor.py:64-66 | once an output's lookup has failed, visiting more outputs keeps that same error |
| SetupProperties.ActiveIndicesSound | custom_components/spyder_thermostat/sensor.py:64-66 | every output the loop keeps is in range and not "Disabled" |
| SetupProperties.ActiveIndicesComplete | custom_components/spyder_thermostat/sensor.py:64-66 | every output in range that is not "Disabled" is kept |
| SetupProperties.ActiveIndicesMembers | custom_components/spyder_thermostat/sensor.py:64-66 | the outputs kept are exactly those in range whose mode is not "Disabled" |
| SetupProperties.ActiveIndicesBounded | custom_components/spyder_thermostat/sensor.py:64 | kept outputs lie between 1 and the output count |
| SetupProperties.ActiveIndicesIncreasing | custom_components/spyder_thermostat/sensor.py:64 | kept outputs are listed in strictly increasing index order |
| SetupProperties.ActiveSetSize | custom_components/spyder_thermostat/sensor.py:64-66 | the number of kept outputs equals the number of outputs in range that are not "Disabled" |
| SetupProperties.BlocksLayout | custom_components/spyder_thermostat/sensor.py:64-72 | after outputs 1..k the list is the four-sensor blocks of the kept outputs, in index order |
| SetupProperties.SetupLayout | custom_components/spyder_thermostat/sensor.py:60-79 | the registered list is the blocks of the kept outputs followed by the three system sensors, with length 4 × kept + 3 |
| SetupProperties.SetupCount | custom_components/spyder_thermostat/sensor.py:64-79 | the list has 4 × (number of outputs in range not "Disabled") + 3 entities |
| SetupProperties.SetupBlockAt | custom_components/spyder_thermostat/sensor.py:67-72 | position 4p + j holds sensor j (temperature, power, high alarm, low alarm) of the p-th kept output |
| SetupProperties.SetupEntityAt | custom_components/spyder_thermostat/sensor.py:64-79 | every position before the last three holds a sensor of a kept output in range; the last three hold the internal temperature, power resets and safety relay sensors, in that order |
| SetupProperties.SetupEntitiesAreActive | custom_components/spyder_thermostat/sensor.py:66-72 | every per-output sensor in the list belongs to an output in range that is not "Disabled" |
| SetupProperties.ActiveOutputListed | custom_components/spyder_thermostat/sensor.py:66-72 | an output in range that is not "Disabled" has all four of its sensors in the list |
| SetupProperties.InactiveOutputUnlisted | custom_components/spyder_thermostat/sensor.py:66 | a "Disabled" output has no sensor in the list |
| SetupProperties.DisabledOutputsExcluded | custom_components/spyder_thermostat/sensor.py:66-72 | for an output in range, each of its four sensors is in the list if and only if its mode is not "Disabled" |
| SetupProperties.SetupWithoutOutputs | custom_components/spyder_thermostat/sensor.py:64 | with an output count of zero or less, the list is exactly the three system sensors |
| SetupProperties.BlocksSucceedIff | custom_components/spyder_thermostat/sensor.py:64-66 | the loop over outputs 1..k succeeds if and only if every one of them has an "outputmode" |
| SetupProperties.SetupSucceedsIffWellFormed | custom_components/spyder_thermostat/sensor.py:64-81 | the callback is reached if and only if the count is an integer and every output in range has a mode |
| SetupProperties.SetupFailsWithoutCount | custom_components/spyder_thermostat/sensor.py:64 | a missing "system" section or "numberofoutputs" field gives that KeyError; a string or other non-integer count gives TypeError |
| SetupProperties.SetupReportsFirstMissingOutput | custom_components/spyder_thermostat/sensor.py:64-66 | the first output in range without a mode stops setup with KeyError of its output key, or KeyError("outputmode") when only the mode is missing |
| SetupProperties.BlockAt | custom_components/spyder_thermostat/sensor.py:67-72 | in the concatenated blocks, position 4p + j holds sensor j of the p-th output |
| SetupProperties.BlocksDifferAt | custom_components/spyder_thermostat/sensor.py:64-72 | blocks of outputs listed in increasing order never repeat a sensor |
| SetupProperties.ListDifferAt | custom_components/spyder_thermostat/sensor.py:64-79 | in the blocks followed by the system sensors, any two positions hold different entities, each keyed "output..." when it belongs to an output |
| SetupProperties.SetupEntitiesDistinct | custom_components/spyder_thermostat/sensor.py:64-79 | no entity appears twice in the registered list |
| SetupProperties.SetupIdsDistinct | custom_components/spyder_thermostat/sensor.py:64-79 | the unique ids of the registered list are pairwise different |
| SetupProperties.PorchSetup | custom_components/spyder_thermostat/sensor.py:60-81 | a controller with one "Dimmer" output yields that output's four sensors and the three system sensors, seven in all |
| SetupProperties.PorchDisabledSetup | custom_components/spyder_thermostat/sensor.py:66 | when that output is "Disabled", only the three system sensors remain |
| SetupProperties.PorchTemperatureSensor | custom_components/spyder_thermostat/sensor.py:96-103 | the porch output's temperature sensor is named "Spyder Porch Temperature" and shows the stored reading 68 |
| Decimal.IntToString | custom_components/spyder_thermostat/sensor.py:98 | `str()` of an integer: "0" for zero, otherwise a minus sign exactly for a negative one, then digits with no leading zero that read back as its absolute value |
| StatusDocument.Lookup | custom_components/spyder_thermostat/sensor.py:66 | `data[section][field]` succeeds if and only if both keys exist and then gives the stored value; a missing section raises KeyError of the section before the field is looked at, and a missing field raises KeyError of the field (likewise 64, 98, 103 and every other subscript) |
| StatusDocument.Render | custom_components/spyder_thermostat/sensor.py:98 | the text an f-string puts in place of a reading: a string unchanged, "True"/"False" for a boolean, and for an integer non-empty decimal text, "0" for zero, a minus sign exactly for a negative one and digits with no leading zero that read back as its absolute value (likewise 131, 189, 211) |
| Sensors.UniqueId | custom_components/spyder_thermostat/sensor.py:93 | every id starts with "spyder_"; a per-output id continues with the output key and an underscore; with UniqueIdInjective as partner, no two sensors keyed "output..." share an id (likewise 126, 155, 184, 206, 225, 243) |
| Sensors.PerOutputIdsDiffer | custom_components/spyder_thermostat/sensor.py:93-206 | per-output sensors of different kinds, or of one kind on different outputs, have different ids |
| Sensors.PerOutputIdIsNotSystemId | custom_components/spyder_thermostat/sensor.py:155-243 | a per-output sensor keyed "output..." never takes the id of a system sensor |
| Sensors.UniqueIdInjective | custom_components/spyder_thermostat/sensor.py:93-243 | two different sensors whose output keys start with "output" have different unique ids |
| Sensors.Name | custom_components/spyder_thermostat/sensor.py:95-98 | a per-output name is "Spyder ", the str() of the output's current nickname, a space and the kind's label; it fails with KeyError of the output or of "outputnickname"; system names always succeed (likewise 128-131, 186-189, 208-211) |
| Sensors.SystemSensorNames | custom_components/spyder_thermostat/sensor.py:157-160 | a system sensor's name is "Spyder " and its label, whatever the document holds (likewise 227-230, 245-248) |
| Sensors.NamesOfOneOutputDiffer | custom_components/spyder_thermostat/sensor.py:95-211 | the four sensors of one output have different names |
| Sensors.NativeValue | custom_components/spyder_thermostat/sensor.py:100-103 | the value is the stored reading of the sensor's field, unchanged, and it succeeds if and only if section and field exist; otherwise it fails with KeyError of the section, then of the field (likewise 133-136, 162-165, 191-194, 213-216, 232-235, 250-253) |
| Sensors.ReadFieldsSucceedsIff | custom_components/spyder_thermostat/sensor.py:108-114 | a dictionary display of subscripts succeeds if and only if every field is present |
| Sensors.ReadFieldsKeys | custom_components/spyder_thermostat/sensor.py:108-114 | a successful display has exactly the listed attribute names as keys |
| Sensors.ReadFieldsValues | custom_components/spyder_thermostat/sensor.py:108-114 | with distinct attribute names, each attribute holds its field's stored value unchanged |
| Sensors.ReadFieldsFirstMissing | custom_components/spyder_thermostat/sensor.py:108-114 | a failed display raises the KeyError of the first missing field in display order |
| Sensors.Attributes | custom_components/spyder_thermostat/sensor.py:105-114 | a sensor has attributes if and only if its field table is non-empty; the high alarm, low alarm, power resets and safety relay sensors have none |
| Sensors.TemperatureReadsTable | custom_components/spyder_thermostat/sensor.py:105-114 | the temperature sensor's attributes are max_temp, min_temp, current_setting, error_code and error_description, read from the output in that order |
| Sensors.PowerReadsTable | custom_components/spyder_thermostat/sensor.py:138-144 | the power sensor's attributes are power_limit and mode, read from the output in that order |
| Sensors.InternalTempReadsTable | custom_components/spyder_thermostat/sensor.py:167-172 | the internal temperature sensor's one attribute max_temp is read from "system" |
| Sensors.AttributesFollowFieldTable | custom_components/spyder_thermostat/sensor.py:105-172 | every sensor's attributes are exactly its field table read in order, or no attributes for an empty table |
| Sensors.AttributesHoldFields | custom_components/spyder_thermostat/sensor.py:108-114 | whenever a sensor reports attributes, each attribute of its table is present and holds the stored value of its field unchanged (likewise 141-144, 170-172) |
| Sensors.AttributeNamesDistinct | custom_components/spyder_thermostat/sensor.py:108-171 | no sensor lists an attribute name twice, so no stored value is overwritten |
| Sensors.MetadataAgrees | custom_components/spyder_thermostat/sensor.py:90-92 | temperature-class sensors are exactly those in degrees Fahrenheit; only the power sensor reports a percentage; only power resets is a total; only the safety relay has no state class (likewise 123-125, 152-154, 181-183, 203-205, 224, 243) |

## Left out

- The HTTP fetch `async_update_data` (custom_components/spyder_thermostat/sensor.py:42-47) is network I/O with a timeout. The model takes the fetched document as a parameter. That code also calls `async_timeout.timeout` although only `timeout` is imported (line 9). Its `NameError` is part of the fetch and is not modelled.
- The `DataUpdateCoordinator`, its polling, the first refresh and availability signalling (custom_components/spyder_thermostat/sensor.py:49-58) are host-framework scheduling. Each projection takes the document it reads as a parameter.
- The call to `async_add_entities` is not modelled as a callback. Setup's success value is the list it would receive, and a `Failure` means it is never called.
- The `CoordinatorEntity` / `SensorEntity` base-class behaviour is not modelled. The device class, state class and unit are kept only as constant tables.
- config_flow.py and const.py are not part of this model. They hold framework wiring and constants, and no logic of the core.
- JSON parsing and the numeric meaning of readings are not modelled. Floats, null, arrays and nested objects are the opaque `Other` value, which carries only the text `str()` gives it.
- A top-level member of the document that is not an object is not modelled. In Python, subscripting it would raise `TypeError`. Here every section is a map.
- Sensors.UniqueIdInjective: requires output keys that start with "output". An output keyed "internal" would share its temperature id with the internal temperature sensor, but the setup loop only creates "output<i>" keys.
