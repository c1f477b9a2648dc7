# xComfort bridge entities, modelled in Dafny

This project models the self-contained logic of two Home Assistant entities
that wrap objects of the Eaton xComfort bridge client library:

- the **RC Touch climate entity** (`climate.dfy`, module `Climate`): the
  table between the host's preset names (`"Cool"`, `"eco"`, `"comfort"`)
  and the controller's heating modes, the clamping of a requested setpoint
  to the allowed range of the current mode, the push handler that copies
  mode, temperature and setpoint from a pushed room state, the preset and
  temperature commands, the read-only properties, and the setup filter
  that picks the rooms to wrap;
- the **xComfort light entity** (`light.dfy`, module `Light`): the
  conversion between the host brightness scale 0..255 and the device level
  0..99, the push handler, the read-only properties, the turn-on and
  turn-off commands that update the held light state in place, and the
  setup filter that picks the lights among the hub's devices.

`wrappers.dfy` holds the `Option` type that stands for Python's `None`.

The entities are classes whose fields the commands update. The vendor
objects they talk to are classes too: `Climate.Bridge` (the bridge
connection, shared by all rooms of a hub, holding the allowed-range table
per mode and receiving the heating-state messages), `Climate.Room` (room
id, its bridge, the current value of the room's state stream, the per-mode
setpoint cache) and `Light.Device` / `Light.LightState`. Every call into
the vendor library is recorded in a ghost log on the object it is made on:
`set_mode` on the room, `send_message` on the bridge, `dimm` and `switch`
on the device. Each `schedule_update_ha_state` call increments a ghost
counter on the entity.

Modelling decisions:

- Temperatures are `real`. The entity's `currentsetpoint` is an
  `Option<real>`, because the push handler copies the pushed `setpoint`,
  which may be `None` (the setup filter tests for exactly that).
- The brightness formulas are written exactly in integers:
  `ceil(b * 99 / 255.0)` as `(99 * b + 254) / 255`, and
  `int(255.0 * d / 99.0)` as `(255 * d) / 99`, truncated toward zero for a
  negative level as Python's `int` does. The contracts of `ToDevice` and
  `ToHost` state the ceiling and truncation against the real quotient.
  Floating-point rounding cannot move either result for the values
  involved, since a non-integral quotient is at least 1/255 (respectively
  1/99) away from an integer.
- Converting a host brightness to the device and back may gain up to two
  steps, never more and never a loss; a claim that it stays within one
  step is false (3 goes to level 2, which reads back as 5).
- `target_temperature` is `Climate.RcTouch.TargetTemperature`; what it
  reports after a push or a set command is stated in the contracts of
  `StateChange` and `SetTemperature`.

## Model

| member | source | states |
|---|---|---|
| `Climate.ModeOfPreset` | custom_components/xcomfort_bridge/climate.py:98-104 | a name selects a mode exactly when it is one of the three offered presets |
| `Climate.PresetName` | custom_components/xcomfort_bridge/climate.py:197-204 | the reported name of every mode is an offered preset and selects that same mode again |
| `Climate.PresetModesOffered` | custom_components/xcomfort_bridge/climate.py:193-195 | the offered presets are three distinct names, each selecting a different mode, and every mode's reported name is among them |
| `Climate.PresetTableInverse` | custom_components/xcomfort_bridge/climate.py:98-104 | name-to-mode and mode-to-name are inverse: a name selects a mode iff it is that mode's reported name |
| `Climate.Clamp` | custom_components/xcomfort_bridge/climate.py:114-122 | the applied setpoint lies in [Min, Max] when Min <= Max, equals the request inside the range and the nearest bound outside; Min wins when Min > Max |
| `Climate.ClampIdempotent` | custom_components/xcomfort_bridge/climate.py:119-122 | clamping an already clamped setpoint changes nothing |
| `Climate.RcTouch.constructor` | custom_components/xcomfort_bridge/climate.py:59-69 | a new entity has no state, preset Comfort, temperature and setpoint 20.0, and reports the default limits 5.0 and 40.0 |
| `Climate.RcTouch.StateChange` | custom_components/xcomfort_bridge/climate.py:80-93 | the state is replaced; a present state takes "mode" over "currentMode" over the old preset and copies temperature and setpoint, and schedules one update; an absent one changes nothing else |
| `Climate.RcTouch.SetPresetMode` | custom_components/xcomfort_bridge/climate.py:95-109 | an unknown name or the current mode changes nothing and calls nothing; otherwise exactly one `set_mode` with the new mode and the preset follows; afterwards an offered name is the reported preset |
| `Climate.RcTouch.SetTemperature` | custom_components/xcomfort_bridge/climate.py:111-133 | the clamped request is the new setpoint and the room's setpoint for the current mode, other modes untouched; exactly one heating-state message on the room's bridge with room id, mode, controller state, clamped setpoint and confirmed = false; the new target lies within the reported limits |
| `Climate.RcTouch.TargetTemperature` | custom_components/xcomfort_bridge/climate.py:189-191 | reports the entity's setpoint; the contracts of `StateChange` (the pushed setpoint) and `SetTemperature` (the clamped request, within the reported limits) fix what it shows after each |
| `Climate.RcTouch.PresetMode` | custom_components/xcomfort_bridge/climate.py:197-204 | the reported preset is the name that selects the current mode |
| `Climate.RcTouch.MinTemp` | custom_components/xcomfort_bridge/climate.py:181-187 | 5.0 until a state is pushed, then the Min of the current mode's range |
| `Climate.RcTouch.MaxTemp` | custom_components/xcomfort_bridge/climate.py:173-179 | 40.0 until a state is pushed, then the Max of the current mode's range |
| `Climate.RcTouch.Action` | custom_components/xcomfort_bridge/climate.py:169-171 | heating iff the pushed power is positive, idle otherwise |
| `Climate.SelectedRooms` | custom_components/xcomfort_bridge/climate.py:43-47 | the filtered rooms, in hub order, never more than the hub's rooms |
| `Climate.SelectedRoomsMembers` | custom_components/xcomfort_bridge/climate.py:44-45 | a room is selected iff it is a hub room whose state is present with a setpoint |
| `Climate.SelectedRoomsAppend` | custom_components/xcomfort_bridge/climate.py:43-47 | selection distributes over concatenation, so hub order is kept |
| `Climate.SetupEntry` | custom_components/xcomfort_bridge/climate.py:43-47 | one new entity per selected room, in order, each in its initial state |
| `Light.ToDevice` | custom_components/xcomfort_bridge/light.py:127 | the device level is the ceiling of b * 99 / 255 |
| `Light.ToHost` | custom_components/xcomfort_bridge/light.py:106 | the host brightness is 255 * d / 99 truncated toward zero |
| `Light.ToDeviceBounds` | custom_components/xcomfort_bridge/light.py:127 | 0..255 maps into 0..99; only 0 goes to 0; 253..255 go to 99 |
| `Light.ToHostBounds` | custom_components/xcomfort_bridge/light.py:106 | 0..99 maps into 0..255; only 0 goes to 0 and only 99 to 255 |
| `Light.DeviceRoundTrip` | custom_components/xcomfort_bridge/light.py:106 | device to host to device is the identity on 0..99 |
| `Light.HostRoundTrip` | custom_components/xcomfort_bridge/light.py:127 | host to device to host never lowers b and raises it by at most 2 on 0..255 |
| `Light.HostRoundTripGainsTwo` | custom_components/xcomfort_bridge/light.py:127 | the gain of 2 is reached (3 -> 2 -> 5) |
| `Light.XComfortLight.constructor` | custom_components/xcomfort_bridge/light.py:49-58 | a new entity wraps its device and holds no state |
| `Light.XComfortLight.StateChange` | custom_components/xcomfort_bridge/light.py:67-75 | the state is replaced; an update is scheduled only for a non-null state |
| `Light.XComfortLight.Brightness` | custom_components/xcomfort_bridge/light.py:102-107 | absent iff there is no state or no level; otherwise the level converted to the host scale, truncated as in the source; a level in 0..99 reads as a brightness in 0..255 that converts back to that level |
| `Light.XComfortLight.IsOn` | custom_components/xcomfort_bridge/light.py:109-112 | on iff a state is held and its switch is on |
| `Light.XComfortLight.CurrentColorMode` | custom_components/xcomfort_bridge/light.py:119-122 | brightness mode iff the device is dimmable, on/off mode otherwise |
| `Light.XComfortLight.SupportedColorModes` | custom_components/xcomfort_bridge/light.py:114-117 | exactly the set holding the current colour mode |
| `Light.XComfortLight.TurnOn` | custom_components/xcomfort_bridge/light.py:124-138 | with a brightness on a dimmable device: one `dimm` with the converted level, which becomes the held level, switch untouched, reported brightness within [b, b + 2]; otherwise one `switch(True)`, the switch set and the level untouched; one update either way |
| `Light.XComfortLight.TurnOff` | custom_components/xcomfort_bridge/light.py:140-146 | one `switch(False)`, the switch cleared, the level untouched, one update |
| `Light.Lights` | custom_components/xcomfort_bridge/light.py:37-42 | the lights among the devices, in order, never more than the devices |
| `Light.LightsMembers` | custom_components/xcomfort_bridge/light.py:38-39 | a device is selected iff it is one of the devices and a `Light` |
| `Light.LightsAppend` | custom_components/xcomfort_bridge/light.py:37-42 | selection distributes over concatenation, so order is kept |
| `Light.SetupEntry` | custom_components/xcomfort_bridge/light.py:28-45 | one new entity per light, in order, each without state |

## Left out

- Host framework plumbing: `async_add_entities`, the subscription made in `async_added_to_hass`, logging, `device_info`, `unique_id`, `name`, `should_poll`, `hvac_mode`, the class attributes and the empty `update`; they only format strings or register callbacks. `schedule_update_ha_state` is a ghost counter.
- `current_temperature` returns the `temperature` field unchanged and has no member of its own; `current_humidity` is not modelled (it truncates a float with `int` and dereferences the state unguarded).
- The entity's `rctstate` field is set to idle by the constructor and never read; it is not modelled.
- Commands are single atomic steps: the event loop, `await` and the interleaving of a command with the next push are concurrency outside this model. "Next push wins" is another call of `StateChange`.
- The vendor library's behaviour behind `set_mode`, `send_message`, `dimm` and `switch`, and its state stream, is not modelled; each call is an entry in a call log.
- The decoding of the raw mode values with `RctMode(...)`, and the error it raises on an unknown value, belong to the vendor library: a pushed state's `raw` already holds modes.
- The numeric encodings of the vendor's mode and controller-state enums are not modelled: a payload carries the mode itself and the controller state's number as given.
- Unguarded dereferences of a missing state or a missing table entry are preconditions, not modelled crashes: `Action` and `SetTemperature` require a present state, `TurnOn` and `TurnOff` require a held light state, and `SetTemperature`, `MinTemp` and `MaxTemp` require the current mode in the allowed-range table.
- The bridge's allowed-range table is a constant of `Climate.Bridge`: the vendor library's updates of that table while the bridge runs are not modelled.
- The climate setup filter reads the value of each room's state stream; a room whose stream itself is missing, which the source would dereference, is not modelled.
- `SetTemperature` takes the requested temperature directly; a call without a `temperature` keyword, on which the source fails, is not modelled.
- Floating-point arithmetic: temperatures are exact reals and the brightness formulas exact integers, as described above.
