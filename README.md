# Multitek Smart Home integration — Dafny model

A model of the data logic of the `multitek_smart` Home Assistant integration,
which polls a wall-mounted Multitek tablet over HTTP for its relay devices
(lights, shutters, on/off relays, gas, electric and water valves) and exposes
them as switch entities and two status sensors.

HTTP calls are not made: every call is represented by the request the code
would build (`Transport.Request`) and an outcome handed in as a value
(`Transport.Response`: a status with a decoded JSON body, a timeout, or an
aiohttp client error). Decoded JSON is `Json.Json`; a device entry is a
`map<string, Json>`, and the coordinator's snapshot maps `str(id)` to entries.
Python's value rules the code relies on are written out in `json.dfy`:
`dict.get` with a default, truthiness, `str()` of scalars (lists and dicts abbreviated), and `==`/hashing between
`True`/`False` and the ints 1/0.

Files, one module each:

- `json.dfy`, `transport.dfy`: JSON values and the request/outcome types.
- `const.dfy`: configuration keys, defaults, relay type codes, endpoint
  templates with `str.format`, and the icon and name tables.
- `coordinator.dfy`: the data coordinator (`class DataCoordinator`): headers,
  the `/api/devices` list indexed into the snapshot, relay commands and their
  merge into one entry, and `test_connection`.
- `switch.dfy`: the switch-type filter, attribute derivation, the entity
  (`class RelaySwitch`) with on/off/toggle, platform setup and the new-device
  listener that records ids in the registry slot.
- `sensor.dfy`: device count, the `type_name` histogram loop, and the
  connection-status value and attributes.
- `integration.dfy`: the per-domain registry (`class Registry`) with setup
  (probe gate, slot stored before the first refresh), unload and reload.
- `config_flow.dfy`: the user and auth steps (`class ConfigFlow`), their
  connection and auth tests, error codes, entry data and unique id, and the
  options step.

Two behaviours of the code are made visible by lemmas:

- The entities created at platform setup are never recorded in the slot's
  `devices` dict, which setup stores empty. The listener's first run therefore
  creates an entity again for every switch-type device
  (`Switch.FirstUpdateRecreatesSetupSwitches`); `Switch.SetupThenFirstUpdate`
  shows the same through setup, platform setup and the listener in turn.
- `async_toggle` negates `is_on` after the command returns. When the device is
  in the snapshot, the command has already merged the reply and notified the
  entity. If the reply carries the new `state`, the entity ends up showing the
  opposite of it (`Switch.ToggleInvertsReportedState`). So a successful toggle
  answered with `{"state": true}` leaves the switch shown as off. The design
  intent, that the switch reflects the reported state, is not what the code
  does; the model follows the code.

The device-count histogram is keyed by `type_name` (default `"unknown"`), not by
the numeric relay type: a light without `type_name` counts under `"unknown"`,
not under `Light` (`Sensor.OneLampScenario`). The model follows the code here.

## Model

| member | source | states |
|---|---|---|
| `Const.RelayTypesAreOneToSix` | custom_components/multitek_smart/const.py:17-22 | the six relay codes light, shutter, on/off, gas, electric and water are 1 to 6 in that order |
| `Const.TablesCoverRelayTypes` | custom_components/multitek_smart/const.py:43-60 | the icon table and the name table both have an entry for each relay code 1..6 and no other key |
| `Const.RelayEndpointTexts` | custom_components/multitek_smart/const.py:29-30 | the state and toggle endpoints read `/api/relay/{device_id}/state` and `/api/relay/{device_id}/toggle` |
| `Const.RelayStateEndpoint` | custom_components/multitek_smart/const.py:29 | the state endpoint template holds exactly one `{device_id}` field; formatting gives `/api/relay/<id>/state` |
| `Const.RelayToggleEndpoint` | custom_components/multitek_smart/const.py:30 | the toggle endpoint template holds exactly one `{device_id}` field; formatting gives `/api/relay/<id>/toggle` |
| `Const.OnePlaceholder` | custom_components/multitek_smart/const.py:29-30 | a template `p{device_id}s` without other `{` formats to `p + id + s` and has one placeholder |
| `Coordinator.AuthHeaders` | custom_components/multitek_smart/coordinator.py:40-43 | the `X-HA-Access` header (value `api_key`, default `""`) is present iff `use_auth` is truthy; otherwise there are no headers |
| `Coordinator.DeviceList` | custom_components/multitek_smart/coordinator.py:63-67 | a missing `devices` field yields no devices; a list yields its items; a body that is not a dict raises |
| `Coordinator.IndexDevicesDefined` | custom_components/multitek_smart/coordinator.py:66-69 | indexing the device list succeeds iff every element is a dict |
| `Coordinator.IndexDevicesKeys` | custom_components/multitek_smart/coordinator.py:66-69 | the snapshot `IndexDevices` builds (the loop's dict, each device stored under `str(id)` in list order) has keys exactly the distinct `str(id)` of the listed devices |
| `Coordinator.IndexDevicesLastWins` | custom_components/multitek_smart/coordinator.py:68-69 | for duplicate ids the later device is the one stored |
| `Coordinator.FailuresGiveNoSnapshot` | custom_components/multitek_smart/coordinator.py:52-76 | for `UpdateOutcome`, the outcome of `_async_update_data`: only a 200 dict reply can give a snapshot; a timeout, a client error or a status other than 200 gives UpdateFailed and no snapshot |
| `Coordinator.MissingDevicesGiveEmptySnapshot` | custom_components/multitek_smart/coordinator.py:67 | a 200 reply without `devices` gives the empty snapshot |
| `Coordinator.DeviceListSnapshot` | custom_components/multitek_smart/coordinator.py:52-71 | a 200 reply listing dicts gives the snapshot keyed by their ids, the last device of each id winning |
| `Coordinator.CommandOutcome` | custom_components/multitek_smart/coordinator.py:101-114 | a command returns the reply exactly on status 200; a non-200 status raises; the snapshot is patched iff the id is present |
| `Coordinator.Patch` | custom_components/multitek_smart/coordinator.py:110-111 | the reply's keys overwrite the entry's, the entry's other keys stay, every other entry is unchanged, an absent id leaves the snapshot as it was |
| `Coordinator.RelayRequest` | custom_components/multitek_smart/coordinator.py:83-99 | always POST with the coordinator's headers; `toggle` goes to the toggle endpoint with `{}`, any other command to the state endpoint with `{"state": value}` |
| `Coordinator.ConnectionTest` | custom_components/multitek_smart/coordinator.py:123-136 | `test_connection` gives the `online` field (default False) of a 200 reply and False for any other status or failure |
| `Coordinator.DataCoordinator.constructor` | custom_components/multitek_smart/coordinator.py:35-50 | base URL from ip and port, headers as `AuthHeaders`, 30-second interval; empty data, last update successful and no last-update time, as assumed of the host |
| `Coordinator.DataCoordinator.FetchDevices` | custom_components/multitek_smart/coordinator.py:52-76 | the loop builds exactly the snapshot `UpdateOutcome` describes, with a GET of `/api/devices` |
| `Coordinator.DataCoordinator.Refresh` | custom_components/multitek_smart/coordinator.py:52-76 | a fetched snapshot replaces the data and marks success at `now`; a failure keeps the data and marks failure |
| `Coordinator.DataCoordinator.SendRelayCommand` | custom_components/multitek_smart/coordinator.py:78-121 | sends `RelayRequest`; the data becomes `Patch` of the old data on a merged reply and is unchanged otherwise, including on every failure |
| `Switch.SwitchTypeFilter` | custom_components/multitek_smart/switch.py:35-57 | `IsSwitchDevice`, the filter of setup and listener: a device is switch-type iff its type is 1, 3, 4, 5 or 6, a missing type counting as 3; a shutter (2) never is |
| `Switch.DeriveDefaults` | custom_components/multitek_smart/switch.py:121-140 | `Derive`, the view `_update_from_data` sets: an entry with only an id shows `Relay <id>`, the on/off icon, type name `Switch`, empty room and flat, not favourite, off |
| `Switch.DeriveReadsEntry` | custom_components/multitek_smart/switch.py:126-140 | in `Derive`, each field the entry carries (name, type_name, room, flat, favourite, state) is shown as it is; a missing state shows off |
| `Switch.DeriveFromTables` | custom_components/multitek_smart/switch.py:129-133 | for relay codes 1..6 the icon comes from the table, and the type name too when `type_name` is missing |
| `Switch.DeriveUnknownType` | custom_components/multitek_smart/switch.py:129-133 | any other type gets icon `mdi:toggle-switch` and, without `type_name`, the name `Unknown` |
| `Switch.ToggleInvertsReportedState` | custom_components/multitek_smart/switch.py:181-189 | after a merged toggle reply carrying `state`, the entity first shows that state and then its negation |
| `Switch.TrackerInvariant` | custom_components/multitek_smart/switch.py:77-90 | after the listener every switch-type id is recorded, only switch-type ids are added, entities are made only for ids not recorded before, and a second run adds nothing |
| `Switch.FirstUpdateRecreatesSetupSwitches` | custom_components/multitek_smart/switch.py:53-67 | with the empty record setup leaves, the listener's first run makes an entity for every switch-type device |
| `Switch.SetupThenFirstUpdate` | custom_components/multitek_smart/switch.py:44-94 | after a passing probe and a fetched first refresh, platform setup and the listener's first run each make one entity per switch-type device, so every entity from setup has a twin with the same unique id |
| `Switch.RelaySwitch.constructor` | custom_components/multitek_smart/switch.py:105-119 | unique id `entry_id + "_" + device_id`, and the view derived from the entry |
| `Switch.RelaySwitch.UpdateFromData` | custom_components/multitek_smart/switch.py:121-140 | the entity's name, icon, attributes and `is_on` become `Derive` of the entry |
| `Switch.RelaySwitch.HandleCoordinatorUpdate` | custom_components/multitek_smart/switch.py:153-159 | the entity is re-derived when its id maps to a non-empty entry and is unchanged otherwise |
| `Switch.RelaySwitch.Command` | custom_components/multitek_smart/coordinator.py:83-112 | the request sent is `RelayRequest` for the entity's own device, command and value; the command's outcome and new snapshot as `SendRelayCommand`; a merged reply notifies the entity, which re-derives its view from the patched snapshot as its listener at switch.py:153-159 does, and nothing else notifies it |
| `Switch.RelaySwitch.TurnOn` | custom_components/multitek_smart/switch.py:161-169 | sends `set_state` with `True`, i.e. a POST to `/api/relay/<id>/state` with body `{"state": true}`; `is_on` becomes True only after the command returns, on top of the view re-derived from the patched snapshot; the snapshot is `Patch` of the old one on a merged reply; a raising command changes neither entity nor snapshot |
| `Switch.RelaySwitch.TurnOff` | custom_components/multitek_smart/switch.py:171-179 | sends `set_state` with `False`, i.e. a POST to `/api/relay/<id>/state` with body `{"state": false}`; `is_on` becomes False only after the command returns, on top of the view re-derived from the patched snapshot; the snapshot is `Patch` of the old one on a merged reply; a raising command changes neither entity nor snapshot |
| `Switch.RelaySwitch.Toggle` | custom_components/multitek_smart/switch.py:181-189 | sends `toggle` with no value, i.e. a POST to `/api/relay/<id>/toggle` with body `{}`; `is_on` becomes the negation of its value after the command's own notification; the snapshot is `Patch` of the old one on a merged reply; a raising command changes nothing |
| `Switch.ToggleAnsweredOn` | custom_components/multitek_smart/switch.py:181-189 | a device in the snapshot toggled and answered with `state: true` is recorded on in the snapshot and shown off by the entity |
| `Switch.SetupSwitches` | custom_components/multitek_smart/switch.py:44-67 | exactly one fresh entity per switch-type device of the snapshot, each built from its entry |
| `Switch.CreateNewSwitches` | custom_components/multitek_smart/switch.py:74-90 | one fresh entity per switch-type id not yet recorded, and the record grown by exactly those ids |
| `Switch.TrackNewDevices` | custom_components/multitek_smart/switch.py:71-94 | the registry slot's record grows by the new switch-type ids and nothing else changes; a missing slot raises and changes nothing |
| `Sensor.SensorUniqueIds` | custom_components/multitek_smart/sensor.py:53-101 | the unique ids (set at lines 53 and 101) are `entry_id + "_device_count"` and `entry_id + "_connection_status"`, so they differ |
| `Coordinator.IndexDevicesSize` | custom_components/multitek_smart/coordinator.py:66-69 | the snapshot has at most as many entries as the list, and exactly as many when the ids are distinct |
| `Sensor.DeviceCountAfterRefresh` | custom_components/multitek_smart/sensor.py:56-58 | `DeviceCount` is `len(coordinator.data)`; after a refresh it is the list's length when ids are distinct, and at most that otherwise |
| `Sensor.CommandKeepsDeviceCount` | custom_components/multitek_smart/sensor.py:58 | merging a command reply leaves the device count unchanged |
| `Sensor.HistogramKey` | custom_components/multitek_smart/sensor.py:65-66 | strings, ints and None are their own keys, booleans merge with 0 and 1, lists and dicts cannot be keys |
| `Sensor.DeviceTypeCounts` | custom_components/multitek_smart/sensor.py:63-66 | the histogram's keys are the `type_name`s present (default `"unknown"`), each count is its number of devices and at least 1, and the counts sum to the device count |
| `Sensor.HistogramIgnoresRelayType` | custom_components/multitek_smart/sensor.py:65 | without `type_name`, every device is counted under `"unknown"` whatever its numeric type |
| `Sensor.OneLampScenario` | custom_components/multitek_smart/sensor.py:58-66 | one lamp of type 1 gives a count of 1 and the histogram `{"unknown": 1}` |
| `Sensor.DeviceCountAttributesOf` | custom_components/multitek_smart/sensor.py:61-72 | the attributes carry the histogram of `DeviceTypeCounts` and the entry's ip and port |
| `Sensor.ConnectionStatus` | custom_components/multitek_smart/sensor.py:103-108 | `"Connected"` iff the last update succeeded, else `"Disconnected"` |
| `Sensor.ConnectionAttributes` | custom_components/multitek_smart/sensor.py:110-121 | `last_update` is present iff the last update succeeded and a time is set; ip and port always |
| `Sensor.StatusAfterRefresh` | custom_components/multitek_smart/sensor.py:56-121 | after a fetch: Connected, the new count and time; after a failure: Disconnected, the old count, no `last_update`; the coordinator's data and status change as `Refresh` states |
| `Integration.StatusProbe` | custom_components/multitek_smart/__init__.py:39-47 | the probe is a GET of `/api/status` carrying `X-HA-Access` iff `use_auth` |
| `Integration.ProbeGate` | custom_components/multitek_smart/__init__.py:41-58 | ready exactly on a 200 dict reply with truthy `online`; another status, a timeout or a client error is not ready |
| `Integration.ProbeAgreesWithConnectionTest` | custom_components/multitek_smart/__init__.py:47-53 | the setup probe is ready exactly when the coordinator's `test_connection` would be truthy |
| `Integration.Registry.constructor` | custom_components/multitek_smart/__init__.py:35 | the domain's registry starts with no entries |
| `Integration.Registry.SetupEntry` | custom_components/multitek_smart/__init__.py:33-70 | no slot unless the probe passes; then a coordinator with base URL `http://ip:port`, the entry's auth headers and the 30-second interval, and its slot with an empty record, stored before the first refresh; a fetched refresh loads the entry with the snapshot and `last_update` now, a failed one makes it not ready with no data and no `last_update` |
| `Integration.Registry.UnloadEntry` | custom_components/multitek_smart/__init__.py:90-98 | the slot is removed iff the platforms unloaded, and that flag is returned |
| `Integration.Registry.ReloadEntry` | custom_components/multitek_smart/__init__.py:101-104 | unload (a raising unload stops the reload), then setup on the unloaded registry with every outcome of `SetupEntry`: probe gate, slot, new coordinator's base URL, headers, interval, data, status and `last_update` |
| `ConfigFlow.DiscoverRequest` | custom_components/multitek_smart/config_flow.py:141-146 | discovery is a GET of `/api/discover` without headers |
| `ConfigFlow.TestConnection` | custom_components/multitek_smart/config_flow.py:137-161 | a non-200 status, a timeout or a client error is CannotConnect; a 200 dict comes back with `ip` and `port` taken from the input and its other keys kept |
| `ConfigFlow.AuthRequest` | custom_components/multitek_smart/config_flow.py:167-174 | the auth test always sends exactly `X-HA-Access: key` |
| `ConfigFlow.TestAuth` | custom_components/multitek_smart/config_flow.py:163-184 | 401 is InvalidAuth, any other non-200 status or failure is CannotConnect, 200 passes |
| `ConfigFlow.AuthRequired` | custom_components/multitek_smart/config_flow.py:55 | `api.auth_required` defaults to false; a non-dict `api` raises |
| `ConfigFlow.UserErrorCode` | custom_components/multitek_smart/config_flow.py:74-80 | CannotConnect, InvalidAuth and anything else map one-to-one to `cannot_connect`, `invalid_auth` and `unknown` |
| `ConfigFlow.AuthErrorCode` | custom_components/multitek_smart/config_flow.py:122-125 | only InvalidAuth gives `invalid_auth`; everything else gives `unknown` |
| `ConfigFlow.AuthStepHidesCannotConnect` | custom_components/multitek_smart/config_flow.py:74-125 | the user step's handlers (lines 74-80) and the auth step's (lines 122-125) agree on every error except CannotConnect, which the auth step reports as `unknown` |
| `ConfigFlow.UserEntryData` | custom_components/multitek_smart/config_flow.py:66-73 | the user step's entry is the input with `use_auth=False` and `api_key=""` |
| `ConfigFlow.AuthConfig` | custom_components/multitek_smart/config_flow.py:102-107 | ip from the discovery, port from the discovery else 8123, `use_auth=True`, the entered key |
| `ConfigFlow.UserEntrySendsNoSecret` | custom_components/multitek_smart/config_flow.py:66-73 | an entry from the user step sends no auth header at run time |
| `ConfigFlow.AuthEntrySendsTestedSecret` | custom_components/multitek_smart/config_flow.py:102-110 | an entry from the auth step sends at run time exactly the header its auth test sent |
| `ConfigFlow.ConfigFlow.constructor` | custom_components/multitek_smart/config_flow.py:36-38 | a new flow has empty discovered info and no unique id |
| `ConfigFlow.ConfigFlow.StepUser` | custom_components/multitek_smart/config_flow.py:40-92 | errors map to their codes; `auth_required` moves to the auth form; otherwise unique id `UniqueId(ip, port)`, i.e. `str(ip) + ":" + str(port)`, and the entry with authentication off |
| `ConfigFlow.ConfigFlow.StepAuth` | custom_components/multitek_smart/config_flow.py:94-135 | the entered key is tested; errors map to the auth codes; a pass sets unique id `UniqueId(ip, port)` (`str(ip) + ":" + str(port)`) and creates the entry from `AuthConfig` |
| `ConfigFlow.OptionsStep` | custom_components/multitek_smart/config_flow.py:202-225 | the options form offers `api_key` (current value as default) iff the entry has `use_auth` |
| `ConfigFlow.OptionsFollowTheFlow` | custom_components/multitek_smart/config_flow.py:209-220 | user-step entries get an empty options form; auth-step entries get their key |
| `ConfigFlow.TestConnectionAsWritten` | custom_components/multitek_smart/config_flow.py:158-161 | as written, every failure of the discovery test becomes an error reported as `unknown` |
| `ConfigFlow.TestAuthAsWritten` | custom_components/multitek_smart/config_flow.py:181-184 | as written, every failure of the auth test becomes an error reported as `unknown` |

## Left out

- HTTP transport: aiohttp sessions, `async_timeout` clocks and JSON decoding are
  not modelled. Each call's outcome is a parameter. JSON numbers with a
  fraction are not modelled.
- The host's `DataUpdateCoordinator` is not part of this model. Its periodic
  scheduling, refresh de-duplication and listener fan-out are left out.
  `DataCoordinator.Refresh` states how it is assumed to keep
  `last_update_success`, `last_update` and the data. The status bookkeeping
  of `async_set_updated_data` after a command is not modelled.
- Coordinator.DataCoordinator.SendRelayCommand: after a merged reply, only the
  commanding entity's own listener is run (in `RelaySwitch.Command`). Other
  entities and the new-device listener are not notified in the model.
- Coordinator.CommandOutcome: a 200 command reply that is not a JSON object is
  modelled as a failure when the device is in the snapshot. Python's
  `dict.update` also accepts a list of key/value pairs; that case is not
  modelled.
- Coordinator.DataCoordinator.constructor: the empty initial `data`, `last_update_success = True` and `last_update = None` are assumptions about the host's coordinator base class, which is not part of this model; `SetupEntry` and `ReloadEntry` state that a failed first refresh leaves `data` empty on the strength of them.
- Coordinator.IdKey: `str()` of a list- or dict-valued id is abbreviated to `[...]` or `{...}` (empty ones are `[]` and `{}`), so distinct non-empty list or dict ids share one snapshot key where Python would keep them apart.
- Switch.IconFor: a `type` that is a JSON list or object would make the table
  lookup raise (unhashable key); the model gives the fallback icon.
- Concurrency and `await` ordering beyond the order inside each function.
- Dict insertion order is not modelled: snapshots, records and histograms are
  Dafny maps and sets, and the loops over them visit keys in any order.
- Platform forwarding (`async_forward_entry_setups`, `async_unload_platforms`)
  is not modelled: its result is the parameter `platformsUnloaded`, and setup
  stops after the first refresh.
- Device registry entries, `DeviceInfo`, form schemas, titles' rendering,
  logging and `last_update.isoformat()`: host-platform presentation. The
  timestamp is an opaque `nat`.
- The form schemas guarantee `tablet_ip`, `tablet_port` and `api_key` in the
  step inputs; the model takes these as preconditions.
- The constants `API_DEVICE` and `API_RELAY_LIST` are declared but not used by
  the code; they appear in `const.dfy` only.

## Findings

| source | as written | input that shows it | evidently intended | confidence | as-written member | corrected member |
|---|---|---|---|---|---|---|
| custom_components/multitek_smart/config_flow.py:158-184 | `asyncio` is not imported, so evaluating `except asyncio.TimeoutError` raises NameError whenever the `try` raised, its own CannotConnect and InvalidAuth included | a 404 from `/api/discover` is reported as `unknown`; a 401 from `/api/status` in the auth step is reported as `unknown` (`ConfigFlow.MissingImportHidesErrorCodes`) | a timeout and a non-200 status give `cannot_connect`; a 401 gives `invalid_auth` | high (not executed) | `ConfigFlow.TestConnectionAsWritten` | `ConfigFlow.TestConnection` |
