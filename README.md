# Event properties of the Yandex smart home integration

This project models the event properties of the `yandex_smart_home` Home Assistant
integration. An event property reports a discrete event of a device to the
Yandex smart home API: a door that is opened or closed, smoke that is detected,
a button that was clicked. For each of the nine event instances (`open`,
`motion`, `gas`, `smoke`, `battery_level`, `water_level`, `water_leak`,
`button`, `vibration`) the model states:

- when an entity state supports it (`supported()`), behind the beta flag of the configuration;
- what it advertises (`retrievable`, `parameters()` with its ordered event list);
- how the current state or action attribute reads as one of its events (`get_value()`), or as nothing.

The implementation module `custom_components/yandex_smart_home/prop_event.py` is
not available; the behaviour modelled is the one `tests/test_prop_event.py`
fixes. Every rule below is taken from that file, or is one of the design
choices listed below where the file leaves room.

Modules:

- `Wrappers` (wrappers.dfy): `Option` and `Result`.
- `EventState` (event_state.dfy): the entity state (domain, state string, attributes) and how its device class and action token are read.
- `EventCatalog` (event_catalog.dfy): the instances, their vocabularies and parameters, the supportedness rules, the translation tables and `get_value()` as pure functions, with the lemmas about them.
- `EventMatcher` (event_matcher.dfy): the registry of event properties and the "exactly one" / "none" outcome of looking a property up by type and instance name.
- `EventProperty` (event_property.dfy): the property object, a class whose `state` field callers reassign or change and whose `GetValue` re-reads it on each call; the base event property and its error.
- `EventScenarios` (event_scenarios.dfy): each test of the suite rebuilt against the model, with what the test asserts as the postcondition.

Design choices where the tests leave room:

- The domain decides the action attribute: a binary sensor reports its action in `last_action`, a sensor in `action`. These are the only pairs the tests use.
- When that attribute is present, its token decides between button and vibration: `single`, `double` and `hold` belong to the button, `vibrate`, `flip90` and `free_fall` to the vibration sensor. So a `single` action yields no vibration property (line 225) and a `vibrate` action no button property (line 273). Presence of the attribute alone is not enough.
- When it is absent, the device class decides: an input_text with device class `button` is a button, a binary sensor with device class `vibration` is a vibration sensor. Such a vibration sensor reads `vibration` while it is `on` (line 286) and nothing when it is `off` (lines 305-308).
- Every other instance needs a binary sensor carrying one of its device classes. The tests use only binary sensors for these instances.
- An instance read from the on/off state reads every state string other than `on` and `off` (and `high` for gas and smoke) as nothing. The tests never set such a string.
- A button without an action attribute reads its state string as the event when that string is one of its events. `click` reads as `click` (line 255-256).
- An attribute whose value is `None` (the `device_class` of line 223) is modelled as absent.
- The base event property raises the error code `NOT_SUPPORTED_IN_CURRENT_MODE` with the message `Failed to get value`. The test requires only that the message contains `Failed to get`.

## Model

| member | source | states |
|---|---|---|
| `EventState.ActionAttribute` | tests/test_prop_event.py:214-218 | a domain has an action attribute exactly when it is binary_sensor or sensor; a binary sensor's is `last_action`, a sensor's `action` |
| `EventState.Action` | tests/test_prop_event.py:221-224 | a state has an action token exactly when its domain's action attribute is present, and the token is that attribute's value |
| `EventState.ActionOfOnlyAttribute` | tests/test_prop_event.py:240-242 | a state whose only attribute is its domain's action attribute has that value as its action |
| `EventCatalog.EventInstance.Name` | tests/test_prop_event.py:65 | the `instance` name reported by `parameters()` is a non-empty identifier of lower-case letters and underscores; `InstanceNamed` below is its inverse |
| `EventCatalog.InstanceNamed` | tests/test_prop_event.py:65 | the inverse of the instance names: the name of an instance gives back that instance, and any instance found carries the requested name |
| `EventCatalog.Vocabulary` | tests/test_prop_event.py:234-237 | every instance advertises two or three events, none repeated |
| `EventCatalog.Retrievable` | tests/test_prop_event.py:64-281 | an instance is retrievable exactly when it is neither button nor vibration, which is exactly when it has no action table and exactly when some device class selects it |
| `EventCatalog.Events` | tests/test_prop_event.py:65 | the `{value: v}` list has one entry per event, in the same order |
| `EventCatalog.ParametersOf` | tests/test_prop_event.py:88 | `parameters()` names the instance and lists its vocabulary in order |
| `EventCatalog.Lookup` | tests/test_prop_event.py:238-253 | a table gives an event only through an entry for the token, the first such entry, and gives nothing exactly when no entry has that token |
| `EventCatalog.LookupEntry` | tests/test_prop_event.py:243-248 | in a table without repeated tokens every entry is the one its token finds |
| `EventCatalog.DeviceClasses` | tests/test_prop_event.py:47-53 | an instance read from the on/off state has at least one device class, button and vibration have none, and neither `button` nor `vibration` selects an on/off instance; which class selects which instance is pinned row by row by `EventScenarios.SuiteOpenRows`, `EventScenarios.SuiteMotionRows`, `EventScenarios.SuiteGasSmokeRows` and `EventScenarios.SuiteBatteryWaterRows` |
| `EventCatalog.StateTable` | tests/test_prop_event.py:64-308 | the state table repeats no token and gives the instance's events in advertised order: all of them except for vibration, which reads only its first; for an on/off instance its first two tokens are `on` and `off` |
| `EventCatalog.ActionTable` | tests/test_prop_event.py:238-302 | only button and vibration have an action table; it repeats no token and gives every event of the vocabulary, in advertised order |
| `EventCatalog.Applies` | tests/test_prop_event.py:47-279 | the support rule, beta aside: a state with neither device class nor action token supports nothing; an on/off instance needs a binary sensor; with an action token present, button or vibration applies exactly when the token reads as an event; without one, only under a device class equal to the instance's own name. The lemmas `EventScenarios.DeviceClassLookup`, `EventScenarios.ButtonLookup`, `EventScenarios.VibrationLookup` and `EventCatalog.ButtonVibrationExclusive` pin the rule on the suite's cases |
| `EventCatalog.Supported` | tests/test_prop_event.py:39-44 | no event property is supported while beta features are off |
| `EventCatalog.Value` | tests/test_prop_event.py:109-116 | `get_value()` of an instance is one of its advertised events or nothing |
| `EventCatalog.ButtonVibrationExclusive` | tests/test_prop_event.py:221-229 | no state supports both the button and the vibration property |
| `EventCatalog.DeviceClassesExclusive` | tests/test_prop_event.py:144-156 | two different device-class instances never support the same state, so battery gives no open and smoke gives no battery_level, water_level or water_leak |
| `EventCatalog.StateFollowsEventOrder` | tests/test_prop_event.py:109-116 | for the retrievable instances `on` reads as the first advertised event, `off` as the second, and `high` as the third, which only gas and smoke have |
| `EventCatalog.ActionEntryReads` | tests/test_prop_event.py:289-297 | a token listed in the button or vibration table reads as the event listed beside it |
| `EventCatalog.RetrievableReadsOnlyState` | tests/test_prop_event.py:233 | a retrievable instance reads the state string alone; a non-retrievable one has two states with the same string that read differently |
| `EventCatalog.EveryEventReachable` | tests/test_prop_event.py:281-302 | every advertised event is what some supported state reads as |
| `EventMatcher.CatalogWellFormed` | tests/test_prop_event.py:39 | the registry holds every event instance, no two under the same name |
| `EventMatcher.Select` | tests/test_prop_event.py:59 | the selection holds only registry entries of the requested name that support the state, and all of them |
| `EventMatcher.SelectByName` | tests/test_prop_event.py:59-61 | over a registry with distinct names, a name selects its instance once when the instance supports the state and nothing otherwise |
| `EventMatcher.SelectUnknownName` | tests/test_prop_event.py:61 | a name no entry carries selects nothing |
| `EventMatcher.Matches` | tests/test_prop_event.py:58-62 | the lookup by type and instance name gives the named event instance when the state supports it, and nothing otherwise |
| `EventMatcher.ExactlyOneOrNone` | tests/test_prop_event.py:81-85 | an instance is supported exactly when its lookup finds exactly it, and unsupported exactly when the lookup finds nothing |
| `EventMatcher.NoBetaNoProperties` | tests/test_prop_event.py:40-44 | with beta off no lookup finds any property |
| `EventMatcher.WaterLevelIsNotFloat` | tests/test_prop_event.py:175-179 | as an event property `water_level` is found exactly when supported; that it is never found as a float property holds by construction, because the float properties are not modelled |
| `EventProperty.ValueOf` | tests/test_prop_event.py:31-36 | the base property fails with code `NOT_SUPPORTED_IN_CURRENT_MODE` and a message starting `Failed to get`; a registered instance never fails and gives one of its events or nothing |
| `EventProperty.Property.constructor` | tests/test_prop_event.py:32 | a new property holds the configuration's beta flag, its kind and the given state |
| `EventProperty.Property.IsSupported` | tests/test_prop_event.py:26-44 | the base property, whose check is forced, always reports supported; a registered instance reports supported exactly when its instance supports the current state, so never while beta is off |
| `EventProperty.Property.IsRetrievable` | tests/test_prop_event.py:64-281 | `retrievable` is false exactly for button and vibration, and when true the value depends on the state string alone |
| `EventProperty.Property.Describe` | tests/test_prop_event.py:65-285 | `parameters()` names the property's own instance and lists its events in advertised order |
| `EventProperty.Property.GetValue` | tests/test_prop_event.py:66-68 | `get_value()` gives what the current state reads as, so nothing is cached between calls |
| `EventProperty.Property.SetState` | tests/test_prop_event.py:240-242 | replacing the state: the object afterwards holds exactly the new state |
| `EventProperty.Property.SetStateValue` | tests/test_prop_event.py:67 | changing the state string: domain and attributes are kept, only the string is new |
| `EventScenarios.BaseValueFails` | tests/test_prop_event.py:31-36 | asking the forced-supported base property for a value fails with `NOT_SUPPORTED_IN_CURRENT_MODE` and a message starting `Failed to get` |
| `EventScenarios.NoBetaUnsupported` | tests/test_prop_event.py:39-44 | with beta off every registered event property reports an open door binary sensor as unsupported |
| `EventScenarios.DeviceClassLookup` | tests/test_prop_event.py:47-62 | a binary sensor that is on is found under a device-class instance exactly when its device class is one of that instance's, and never as a float property |
| `EventScenarios.SuiteOpenRows` | tests/test_prop_event.py:47-61 | door, garage_door, window and opening binary sensors are found as exactly the open property, a battery one as none |
| `EventScenarios.SuiteMotionRows` | tests/test_prop_event.py:71-85 | motion, occupancy and presence binary sensors are found as exactly the motion property (the battery row of this test looks up `open`, which `EventScenarios.SuiteOpenRows` covers) |
| `EventScenarios.SuiteGasSmokeRows` | tests/test_prop_event.py:94-129 | a gas binary sensor is found as exactly the gas property and a smoke one as exactly the smoke property; a battery one as neither |
| `EventScenarios.SuiteBatteryWaterRows` | tests/test_prop_event.py:144-198 | battery, water_level and moisture binary sensors are found as exactly battery_level, water_level and water_leak; a smoke one as none of them |
| `EventScenarios.SuiteDescriptions` | tests/test_prop_event.py:64-65 | only button and vibration are not retrievable, and each instance's `parameters()` is exactly the list the suite expects |
| `EventScenarios.DeviceClassReads` | tests/test_prop_event.py:108-116 | such a property reads `on` and then, after the state string is set to `off`, `off` as its first two events; gas and smoke set to `high` read `high` |
| `EventScenarios.ActionStateReads` | tests/test_prop_event.py:245-248 | a state holding only its domain's action attribute reads as the action table of button or vibration says |
| `EventScenarios.ButtonSuiteTokens` | tests/test_prop_event.py:238-253 | the button table reads `single`, `double`, `hold` as click, double_click, long_press and `invalid` as nothing |
| `EventScenarios.VibrationSuiteTokens` | tests/test_prop_event.py:286-302 | the vibration table reads `vibrate`, `flip90`, `free_fall` as vibration, tilt, fall and `invalid` as nothing |
| `EventScenarios.ButtonLookup` | tests/test_prop_event.py:214-230 | a state with action `single` is never a vibration sensor and is a button unless the attribute is unrelated to the domain |
| `EventScenarios.ButtonActionReads` | tests/test_prop_event.py:238-253 | a button reads `single`, `double`, `hold`, `invalid` in turn as click, double_click, long_press and nothing |
| `EventScenarios.ButtonRawClick` | tests/test_prop_event.py:255-256 | a found button whose state is replaced by a bare `click` state reads click |
| `EventScenarios.VibrationLookup` | tests/test_prop_event.py:259-279 | a state with action `vibrate`, or with device class vibration, is never a button and is a vibration sensor unless the attribute is unrelated |
| `EventScenarios.VibrationActionReads` | tests/test_prop_event.py:286-302 | a vibration sensor reads `vibrate`, `flip90`, `free_fall`, `invalid` in turn as vibration, tilt, fall and nothing |
| `EventScenarios.VibrationDeviceClassReads` | tests/test_prop_event.py:304-308 | a vibration sensor found by device class reads vibration while on and nothing once off |

## Left out

- The Home Assistant runtime: the `hass` fixture, the internals of `State`, the async test functions and pytest's parametrisation. The parametrised cases become parameters of the scenario members, and a state is a record of domain, state string and string attributes.
- The object id of the entity id: no rule reads it.
- Attribute values that are not strings: every rule compares attributes with strings, and a `None` value is treated as an absent attribute.
- The property registry beyond its event properties. The float properties are not part of this model, so a lookup of type float finds nothing by construction.
- The test helpers `get_exact_one_property` and `assert_no_properties`. Only their outcomes are modelled: exactly one property found, or none.
- Configuration objects: only the beta flag is kept.
- `SmartHomeError` beyond its code and message.
- Aliasing of the state object: `prop.state.state = ...` changes a state object that other holders could share. The model replaces the object's state with an updated copy, so only the property's own view changes.
- The exact wording of the base property's error message: the test fixes only that it contains `Failed to get`.
- HTTP transport, serialisation to the remote API, device control, logging and config-entry setup: none of these is exercised by this test file.
