# Raspberry Pi relay board REST API — Dafny model

This project models the core of `pi-power-switch`, a small HTTP server that exposes
the relays of a Raspberry Pi relay board. The relays sit on the BCM pins
`[6, 13, 19, 26]`. The server offers two API surfaces over one shared relay registry:

- the **relay resource API**: `GET /relays`, `GET /relays/<relay>`, and
  `PUT /relays/<relay>/toggle`, `/on` and `/off`. Relays are addressed by a 1-based
  decimal relay number.
- the **myStrom WiFi Switch emulation**: `GET /relay?state=`, `GET /toggle` and
  `GET /report`. It takes no relay number and always acts on the default relay, internal
  index `DEF_RELAY = 2`, which is relay number 3.

The registry is modelled as an immutable `seq<bool>`. Entry `i` is the on/off value of
relay `i + 1`. Every handler is a pure function from its input and the registry to a
`Reply`, which holds a response and the registry after the request. A response is
`Empty`, `RelayState(b)` (the `{"relay": b}` body), `Overview` (the list of
`{number: state}` entries), or the single canonical `NotFound` (404) page.

Modules, in dependency order:

- `Wrappers` (`wrappers.dfy`): `Option`.
- `Registry` (`registry.dfy`): the pin list, `DefRelay`, the all-off initial registry,
  decimal relay numbers, `GetDevice` (the source's `getDevice`), and the driver commands
  on one relay.
- `Http` (`http.dfy`): responses, replies and status codes.
- `RelayApi` (`relay_api.dfy`): the relay resource API handlers and their properties.
- `MyStromApi` (`mystrom_api.dfy`): the myStrom emulation handlers and their properties.
- `Server` (`server.dfy`): request routing, serving a run of requests, cross-API
  consistency, and two example runs.

The source defines a Python function named `toggle` twice: once for `GET /toggle` and once
for `PUT /relays/<relay>/toggle`. Both routes are registered by their decorators when the
functions are defined, so both stay live. They are modelled as `MyStromApi.Toggle` and
`RelayApi.ToggleRelay`.

Assumptions:

- Python's `str.isdigit` is modelled for ASCII digits `'0'..'9'` only. This matches
  Python 2.7 byte strings, which the source names as its tested runtime.
- `int()` of a digit string is modelled as its decimal value. Leading zeros are
  accepted, so `"03"` addresses relay 3.
- Numbers are unbounded, as they are in Python. A huge number is simply out of range.
- A missing `state` query parameter is modelled as `None`. Bottle's `request.query.state`
  yields `""` for a missing key, so `None` behaves exactly like `Some("")`.
- The handlers work for a registry of any length. `len(devices)` is `|s|`. Only the myStrom
  handlers require `DefRelay < |s|`, which the deployed configuration guarantees (four
  relays; see `Registry.DefRelayInRange`).

## Model

| member | source | states |
|---|---|---|
| `Registry.DefRelayInRange` | src/power-switch-api.py:28-30 | The startup registry has one relay per configured pin (4), and the default relay index 2 is inside it. Every relay starts off, as the devices are created with an initial value of off at line 142. |
| `Registry.GetDevice` | src/power-switch-api.py:82-87 | A relay number is accepted exactly when it is a non-empty all-digit string whose value `r` satisfies `1 <= r <= count`; the accepted index is `r - 1` and lies below `count`; every other input is the single "not found" outcome. |
| `Registry.DecimalRoundTrip` | src/power-switch-api.py:83-84 | Reading back the canonical decimal spelling of any number `n`, as `int()` does, yields `n`. |
| `Registry.CanonicalRoundTrip` | src/power-switch-api.py:83-84 | Every digit string without a superfluous leading zero is the canonical spelling of its own value. Together with the previous row, canonical spellings and numbers are in one-to-one correspondence. |
| `Registry.LeadingZeroIgnored` | src/power-switch-api.py:83-86 | Prefixing any string with `0` does not change which relay, if any, it addresses: a digit string keeps its value, as `int("03") == 3`, and a string with a non-digit stays rejected. |
| `Registry.GetDeviceBijection` | src/power-switch-api.py:82-87 | Relay number `r` in `1..count`, spelled canonically, selects internal index `r - 1`, so every relay is reachable. Injectivity is the next row. |
| `Registry.DistinctNumbersDistinctRelays` | src/power-switch-api.py:82-87 | Two different canonical relay numbers never select the same relay. |
| `Registry.GetDeviceRejects` | src/power-switch-api.py:82-87 | `""`, `"0"`, the number `count + 1`, any string holding a non-digit, and any string with a leading sign, a leading space or a trailing space are all "not found". |
| `RelayApi.Enumerate` | src/power-switch-api.py:60-62 | The overview loop from position `from` yields one entry per remaining relay, in order, each keyed by its 1-based number and carrying that relay's state. |
| `RelayApi.GetOverview` | src/power-switch-api.py:58-63 | `GET /relays` always succeeds and never changes the registry. It returns exactly `N` entries, and entry `i` is `(i + 1, s[i])`. |
| `RelayApi.GetRelayState` | src/power-switch-api.py:65-67 | `GET /relays/<relay>` never changes the registry. It returns the state of relay `r` (index `r - 1`) for a valid number `r`, and 404 otherwise. |
| `RelayApi.ToggleRelay` | src/power-switch-api.py:69-72 | For a valid number, flips exactly that relay and answers with its new, post-toggle state. For an invalid number, answers 404 and leaves the registry as it was. |
| `RelayApi.SwitchOn` | src/power-switch-api.py:74-76 | For a valid number, turns that relay on, changes no other relay, and gives an empty success. Otherwise answers 404 with the registry unchanged. |
| `RelayApi.SwitchOff` | src/power-switch-api.py:78-80 | For a valid number, turns that relay off, changes no other relay, and gives an empty success. Otherwise answers 404 with the registry unchanged. |
| `RelayApi.InvalidIdRejected` | src/power-switch-api.py:65-87 | Whenever the lookup fails, all four per-relay operations answer 404 and leave every relay unchanged. |
| `RelayApi.SwitchIdempotent` | src/power-switch-api.py:74-80 | Switching a relay on twice gives the same reply and registry as switching it on once; the same holds for off. |
| `RelayApi.SwitchOverrides` | src/power-switch-api.py:74-80 | `on` after `off` equals `on` alone, and `off` after `on` equals `off` alone: the result does not depend on the prior state. |
| `RelayApi.ToggleInvolution` | src/power-switch-api.py:69-72 | Toggling the same relay number twice restores the whole registry, and the two toggle answers are opposite. |
| `RelayApi.ReadAfterWrite` | src/power-switch-api.py:65-80 | After `on`, `off` or `toggle` of a valid relay, reading that relay reports `true`, `false`, or exactly what the toggle answered. |
| `RelayApi.OverviewAgreesWithRead` | src/power-switch-api.py:58-67 | Overview entry `i` carries relay number `i + 1`, and its state equals what `GET /relays/<i+1>` returns. |
| `MyStromApi.SetState` | src/power-switch-api.py:40-47 | `"1"` turns the default relay on and `"0"` turns it off, in both cases changing no other relay and giving an empty success. Any other value, or no value, answers 404 with the registry unchanged. |
| `MyStromApi.Toggle` | src/power-switch-api.py:49-51 | `GET /toggle` flips only the default relay and gives an empty success. |
| `MyStromApi.Report` | src/power-switch-api.py:53-55 | `GET /report` returns the default relay's state without changing the registry. |
| `MyStromApi.UnknownStateRejected` | src/power-switch-api.py:42-47 | A missing value, `""`, `"2"`, `"abc"` and every value other than `"1"`/`"0"` give the 404 reply with status 404 and an unchanged registry. |
| `MyStromApi.MissingStateIsEmpty` | src/power-switch-api.py:42-44 | A request without a `state` parameter is handled exactly like `state=` with an empty value. |
| `MyStromApi.SetStateIdempotent` | src/power-switch-api.py:40-47 | Repeating any set-state request gives the same reply and registry as making it once. |
| `MyStromApi.ToggleInvolution` | src/power-switch-api.py:49-51 | Two legacy toggles restore the registry. |
| `MyStromApi.ReportAfterWrite` | src/power-switch-api.py:40-55 | `report` shows `true` after `state=1`, `false` after `state=0`, and the negated previous state after a legacy toggle. |
| `Server.Dispatch` | src/power-switch-api.py:40-80 | Routing any request keeps the registry length. Read-only routes and every 404 leave the registry unchanged. No request changes more than one relay. |
| `Server.Serve` | src/power-switch-api.py:35-80 | Serving a run of requests against the shared registry gives one response per request and keeps the number of relays. A run of read-only requests, or a run answered only by 404s, leaves the registry as it was. |
| `Server.OneErrorKind` | src/power-switch-api.py:33-47 | Any request is answered with status 404 exactly when it names no relay on a per-relay route or carries a set-state value other than `"1"`/`"0"`; every other request gets status 200. |
| `Server.DefaultRelayNumber` | src/power-switch-api.py:28-30 | The default relay (index 2) is relay number `"3"` on the relay API, and `"3"` resolves to index 2 in the deployed four-relay registry. |
| `Server.LegacyIsRelayApiOnDefault` | src/power-switch-api.py:38-80 | `state=1`/`state=0` give the same reply and registry as `PUT /relays/3/on`/`off`. Any other value is the same 404 that the relay API gives for an invalid number. The legacy toggle leaves the same registry as `PUT /relays/3/toggle`, whose answer is the new default-relay state. `report` answers exactly like `GET /relays/3`. |
| `Server.OtherRelaysInvisibleToReport` | src/power-switch-api.py:53-80 | A toggle, on or off that does not resolve to the default relay does not change what `report` returns. |
| `Server.RelayApiScenario` | src/power-switch-api.py:58-80 | From the all-off start: `PUT /relays/2/on` gives `[false,true,false,false]`. Then toggle relay 2 answers `false`, `GET /relays/5` is 404, and the overview lists relays 1-4 all off. |
| `Server.CrossApiScenario` | src/power-switch-api.py:40-80 | From the all-off start: `state=1` then `report` shows `true`; then `PUT /relays/3/off` and `report` shows `false`. |

## Left out

- Bottle routing, decorators and request plumbing are not modelled. Routing is only the `Server.Request` datatype. The 404 page's HTML body is reduced to the abstract `NotFound` response.
- The HTTP-level route matching is not modelled. The `<relay>` wildcard never matches an empty segment or one containing `/`. `GetDevice` is defined for every string, so this only widens the model.
- Repeated `state` parameters are not modelled. Bottle's multi-value query handling is part of the HTTP layer, so the model takes the single value the handler receives.
- The gpiozero `OutputDevice` driver and its active-low polarity are not modelled. It is a foreign hardware library, so each relay is a plain boolean. Each driver command (`on`, `off`, `toggle`) is an update of one entry.
- Non-ASCII digits are not modelled. Python 3's `str.isdigit` accepts characters such as `'²'` that `int()` then rejects. The model follows Python 2.7's ASCII-only semantics.
- Argument parsing, logging setup, the rotating log file and the stdout/stderr redirection are not modelled. They are I/O configuration.
- Server startup, the reloader, threaded dispatch and the final closing of every device are not modelled. They are process lifecycle and concurrency. Requests are served strictly one after another (`Server.Serve`).
