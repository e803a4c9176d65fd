# Tesla / Solplanet charging automation, modelled in Dafny

The automation runs one cycle every few minutes. Each cycle takes the first
car on the Tesla account and wakes it if it is not online. It then refreshes
the car's data and reads the current solar production from the Solplanet
inverter. From three signals it sends at most one command: start charging,
stop charging, or nothing. The signals are whether the car is charging, the
solar production in kW, and the car's battery level in %.

The rule has a hysteresis band. Charging starts at 2.0 kW or more (and only
below a 90% battery). It stops below 0.5 kW or at 90% battery. In between,
nothing happens. If the solar reading cannot be taken, it is 0 kW, which never
starts charging.

Files:

- `charging_policy.dfy` (module `ChargingPolicy`): the thresholds and the
  decision rule `Decide`. It also has lemmas about runs of successive cycles
  (`Issued`), under the assumption that the car obeys each command before the
  next cycle.
- `solplanet.dfy` (module `Solplanet`): the solar reading `SolarReading`. Its
  inputs are an optional API key and an abstract HTTP response.
- `automation.dfy` (module `Automation`): the `Vehicle` class and the
  specification `Cycle` of one cycle. It also has the imperative cycle
  `RunAutomationLogic`, proved against `Cycle`.
- `wrappers.dfy` (module `Wrappers`): `Option`.

Solar power is a `real`. The source only compares it, never computes with it.

The decision reads nothing but its three inputs and the fixed thresholds, so it
is deterministic: `Decide` is a Dafny function, and equal inputs give equal
commands by construction.

The HTTP client raises for status codes 400 to 599 (`raise_for_status`).
`SolarReading` treats these as request failures. It also treats a body that is
not JSON as a failure, as the HTTP client library does from version 2.27 on. In
that version, a JSON decoding error is a request exception, so the handler at
app.py:46 catches it.

## Model

| member | source | states |
|---|---|---|
| `ChargingPolicy.Decide` | app.py:83-88 | The thresholds (app.py:19-21) are 2.0 kW to start, 0.5 kW to stop and a 90% battery cap. Start only when not charging, with solar ≥ 2.0 and battery < 90. Stop only when charging. No Start at battery ≥ 90, whatever the sun. The start condition always starts. Solar < 0.5 alone stops a charging car, and so does battery ≥ 90 alone. Two bands send nothing: charging with solar ≥ 0.5 and battery < 90, and not charging with solar < 2.0 or battery ≥ 90. |
| `ChargingPolicy.ZeroSolarNeverStarts` | app.py:83 | A solar reading of 0 kW never yields Start, whatever the charging state and battery level. |
| `ChargingPolicy.Issued` | app.py:52-53 | Runs successive cycles. Never more commands than cycles, and never a "no command" entry in the list of commands sent. |
| `ChargingPolicy.IssuedAlternates` | app.py:83-88 | With an obedient car, the first command sent is the one that changes the initial charging state. No command is ever sent twice in a row, so no command is redundant. |
| `ChargingPolicy.FinalChargingFollowsLastCommand` | app.py:83-88 | After a run, an obedient car charges exactly when the last command was Start. If nothing was sent, its state is unchanged. |
| `ChargingPolicy.NothingIssuedInBand` | app.py:83-88 | While every reading has solar in [0.5, 2.0) and battery < 90, no command is sent and the charging state never changes. |
| `ChargingPolicy.FullBatteryStopsOnce` | app.py:83-88 | While the battery stays at or above 90, a charging car gets exactly one Stop, in the first cycle. An idle car gets nothing. |
| `Solplanet.SolarReading` | app.py:29-48 | The reading is the inverter's `current_power_kw` exactly when that value is available: the key is set, not empty and not `'ainda_a_esperar'`; the request succeeded with a non-error status; the body is a JSON object that has the field. Otherwise the reading is 0. |
| `Automation.UnavailableSolarNeverStarts` | app.py:29-48 | If the solar value is unavailable (missing or placeholder key, failed request, error status, body not JSON, missing field), the decision is never Start. |
| `Automation.Cycle` | app.py:56-88 | An empty vehicle list ends the cycle with no request. A wake-up is sent exactly when the car's state is not `'online'`, and before anything else. A failed wake-up ends the cycle (`WakeFailed`) before the refresh, and a failed refresh ends it (`FetchFailed`) before the decision. The data is refreshed exactly when the car is or was brought online. No request is sent twice, so there is at most one wake-up and one refresh. The decision is taken exactly when the refresh succeeded. It is `Decide` applied to the refreshed data, with the car charging exactly when `charging_state` is `'Charging'`. A command is sent exactly when the decision asks for one. It is the last request, right after the refresh, so there is at most one per cycle. |
| `Automation.RunAutomationLogic` | app.py:52-88 | The imperative cycle. Only the first listed car changes. Its request log grows by exactly the requests that `Cycle` describes. It is online after a successful wake-up and holds the refreshed data after a successful refresh. The outcome is the one `Cycle` gives on the solar reading `SolarReading`. |
| `Automation.Vehicle.SyncWakeUp` | app.py:66-68 | Logs a wake-up. The car is online if the wake-up reached it. Otherwise the call fails and the state is unchanged. |
| `Automation.Vehicle.GetVehicleData` | app.py:72-75 | Logs a refresh. If the refresh succeeds, it replaces the charge data with what the API returned. |
| `Automation.Vehicle.Command` | app.py:85-88 | Logs the command and changes nothing else. |

## Left out

- HTTP calls to the Solplanet API are left out, because they are network I/O. This covers building the URL and headers, the GET request and its 10-second timeout, and JSON decoding. The response is an abstract input: a failed request, or a status code with a body.
- The Tesla client internals are foreign library calls: listing vehicles, waking up, fetching data, sending commands and caching tokens. The vehicle list is a parameter. Whether the wake-up reaches the car and what the refresh returns are parameters too. A command is always logged as sent, because its own failure would come after the last step of the cycle.
- A body that is valid JSON but not an object (a list, say) is left out: `data.get` then raises an error the request handler does not catch, and it escapes to the handler of the cycle's `try`. A power field that is not a number is left out too: `get_solplanet_data` returns it unchanged (app.py:43-45), and the comparison at app.py:83 or app.py:86 then raises a type error for a string or null, while a JSON boolean compares as 1 or 0 and raises nothing.
- The `except` handler of the cycle's `try` is not modelled; the model stops where the `try` body stops (`WakeFailed`, `FetchFailed`).
- A failure of `vehicle_list()` at app.py:57 (a network error, an expired token) is left out: it raises into the unmodelled handler before any car is touched, so no request reaches a car. `RunAutomationLogic` takes the vehicle list as an already listed parameter.
- Lookups of missing keys in the vehicle data are left out. These are `display_name`, `state`, `charge_state`, `charging_state` and `battery_level`. The model assumes every field is present.
- `Automation.Vehicle.GetVehicleData` does not model any change to the car's `state` field that a refresh may bring, because the cycle never reads `state` after the refresh.
- Loading configuration from environment variables (app.py:13-16) is left out. The API key is a parameter. The inverter identifier `SOLPLANET_INVERTER_ID` is read only to build the request URL (app.py:38), which is left out with the HTTP call. The Tesla account settings are read only by the client setup, which is not part of this model. Console logging is left out too.
- The polling interval and the sleep between cycles (app.py:22) are left out. The web server is left out too: Flask is imported at app.py:7 and the app object is created at app.py:25, and its liveness route and the background thread come after the cycle. The lemmas over `Issued` model the repetition only as a sequence of cycle inputs.
- The lemmas over runs of cycles assume the car obeys each command before the next cycle. In reality the car's charging state is read fresh each cycle and may change for other reasons. The single-cycle properties in `Decide` and `Cycle` do not depend on this assumption. So "no command is redundant" (`IssuedAlternates`) holds only for the model. A car that is unplugged or fully charged reports `charging_state` `'Disconnected'` or `'Complete'`, never `'Charging'`. By app.py:74 and app.py:83, such a car is sent `CHARGE_START` every cycle while solar is at least 2.0 kW and the battery is below 90%.
- Floating-point rounding of the solar value is left out, because it is only compared.
- The house-battery policy, the alternative to the solar-power rule, is not in this source and is not modelled.
