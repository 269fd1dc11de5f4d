# Mesh device WiFi layer — a Dafny model

This project models the WiFi connectivity layer of a mesh radio device
(`src/meshwifi/meshwifi.cpp`). The layer decides, from the stored preferences, whether the
radio hosts its own access point (fixed address 192.168.42.1/24, with a wildcard DNS
responder on port 53 acting as a captive portal) or joins an existing network as a
station. It reacts to radio events: a lost connection triggers an immediate rejoin, and an
obtained address or a started access point starts the web server and the device-API
server. It also provides two idle hooks for the main loop: the API server tick and the
DNS responder poll.

The radio driver, the DNS responder, the web server and the API server port are foreign
code. The model does not execute them. It records each call into them as an abstract
`Action` (`SetMode`, `OnEvent`, `SoftAPConfig`, `SoftAP`, `DnsStart`, `Begin`,
`InitWebServer`, `ApiInit`, `ApiLoop`, `DnsProcess`) in an append-only log. Each
operation's contract says exactly which actions it appends.

- `wifi_spec.dfy` (module `WifiSpec`) holds the values and the reference functions:
  - the preferences (`Config`), whose name and password are raw NUL-terminated character
    buffers;
  - the events of the handler's switch, plus `Unlisted` for its `default` branch;
  - the actions each operation appends (`InitWifiActions`, `ReconnectActions`,
    `EventEffect`, ...) and the effect of a whole event sequence (`EventsEffect`);
  - the lemmas about all of these.
- `meshwifi.dfy` (module `MeshWifi`) holds the class `WifiLayer`. Its fields are the
  preferences, whether the static `apiPort` pointer is set, and the action log.
  `isWifiAvailable` is the function `WifiSpec.IsWifiAvailable`; every other function of
  the source file is a method of `WifiLayer` whose `ensures` give exactly the actions it
  appends, through a reference function of `WifiSpec` where one exists. The
  class invariant is that the API port was created exactly once if it exists, never if it
  does not, and was ticked only after it was created. Five client methods play through
  the scenarios of an empty configuration, an access point and a station, with their events.

Facts about the code that the model keeps as they are:
- `reconnectWiFi` (meshwifi.cpp:230-237) checks only `has_preferences` and the two
  credentials, never `wifi_ap_mode`. So a lost station connection triggers the rejoin even
  with the access-point flag set, and switches the radio to station mode. See
  `ReconnectIgnoresAccessPointFlag`.
- `handleDNSResponse` (meshwifi.cpp:220-221) checks only `wifi_ap_mode`, not whether
  `initWifi` started the responder (it does so only at meshwifi.cpp:82). See
  `DnsTickWithoutResponder`.
- `initWebServer` is called unguarded on every address or access-point-start event
  (meshwifi.cpp:152, 176). Only the API server is guarded, by the null check at
  meshwifi.cpp:112. No function of the file resets `apiPort`, `deinitWifi` included
  (meshwifi.cpp:31-47), so the API server is created at most once per process.
- The file keeps no connection-state variable, so the model has none.

## Model

| member | source | states |
|---|---|---|
| WifiSpec.CStringIsTerminatedPrefix | src/meshwifi/meshwifi.cpp:17-20 | The text read from a preferences buffer is a prefix of the buffer, contains no NUL, and is followed in the buffer by a NUL whenever it is shorter than the buffer |
| WifiSpec.CStringRoundTrip | src/meshwifi/meshwifi.cpp:17-18 | A NUL-free text stored with a terminator and any padding reads back as exactly that text |
| WifiSpec.IsWifiAvailable | src/meshwifi/meshwifi.cpp:15-28 | The gate's `*name && *password` test holds iff both the network name and the password are non-empty texts; a function, so it has no side effects |
| WifiSpec.InitWifiGated | src/meshwifi/meshwifi.cpp:50-56 | initWifi acts on the hardware iff credentials are available and preferences exist; with an empty name or password it appends nothing |
| WifiSpec.InitWifiAccessPoint | src/meshwifi/meshwifi.cpp:73-82 | In access-point mode initWifi registers the handler, configures ip = gateway = 192.168.42.1 with mask 255.255.255.0, starts the access point with the stored credentials, and starts DNS on port 53 for "*" answering 192.168.42.1, in that order; it never joins and never sets station mode |
| WifiSpec.InitWifiStation | src/meshwifi/meshwifi.cpp:84-94 | In station mode initWifi sets station mode, registers the handler and issues exactly one join with the stored credentials (no retry), and starts no DNS responder |
| WifiSpec.EventEffectCounts | src/meshwifi/meshwifi.cpp:138-177 | One event leaves the API port present iff it was present or the event is STA_GOT_IP/AP_START; it appends ApiInit once iff the port was absent and the event starts the servers, InitWebServer once iff the event starts the servers, and one SetMode(STA) and one join iff the event is STA_DISCONNECTED with preferences and credentials present |
| WifiSpec.EventsStartServices | src/meshwifi/meshwifi.cpp:147-177 | Over any event sequence, ApiInit is appended at most once (never if the port already existed), the port exists afterwards iff it existed before or some GOT_IP/AP_START event occurred, and InitWebServer is appended once per such event |
| WifiSpec.EventsReconnect | src/meshwifi/meshwifi.cpp:138-142 | Over any event sequence, the number of joins with the stored credentials and of returns to station mode equals the number of disconnections when preferences and credentials exist, and is zero otherwise |
| WifiSpec.RepeatedDisconnects | src/meshwifi/meshwifi.cpp:225-240 | n consecutive disconnections append exactly n copies of the rejoin sequence and leave the API port as it was: no backoff, no suppression |
| WifiSpec.LogOnlyEventsChangeNothing | src/meshwifi/meshwifi.cpp:122-215 | Any sequence of events other than STA_DISCONNECTED, STA_GOT_IP and AP_START (STA_LOST_IP and unlisted codes included) leaves the API port and the log unchanged |
| WifiSpec.ReconnectIgnoresAccessPointFlag | src/meshwifi/meshwifi.cpp:225-240 | The rejoin does not depend on the access-point flag: in access-point mode a disconnection still switches the radio to station mode |
| WifiSpec.DnsTickWithoutResponder | src/meshwifi/meshwifi.cpp:218-223 | With the access-point flag set but no preferences or an empty name or password, initWifi never starts the DNS responder, yet the DNS tick still polls it |
| WifiSpec.TicksAfterCreationConcat | src/meshwifi/meshwifi.cpp:102-116 | Whether every API port tick comes after a creation splits at any seam of the log: the left part must satisfy it, and the right part must satisfy it given whether the left part created the port |
| WifiSpec.AppendOther | src/meshwifi/meshwifi.cpp:31-99 | Appending actions that neither create nor tick the API port keeps the invariant: created once iff present, ticked only after creation |
| WifiSpec.AppendApiInit | src/meshwifi/meshwifi.cpp:112-115 | Creating the API port when it is absent keeps the invariant: created once iff present, ticked only after creation |
| WifiSpec.AppendApiLoop | src/meshwifi/meshwifi.cpp:105-106 | Ticking the API port when it is present keeps the same invariant |
| MeshWifi.WifiLayer.constructor | src/meshwifi/meshwifi.cpp:12-13 | At boot the API port pointer is null and nothing has been called |
| MeshWifi.WifiLayer.DeinitWifi | src/meshwifi/meshwifi.cpp:31-47 | Appends exactly SetMode(NULL); the API port and the preferences are untouched, so it is safe before any initWifi |
| MeshWifi.WifiLayer.InitWifi | src/meshwifi/meshwifi.cpp:50-99 | Appends exactly InitWifiActions of the preferences and keeps the class invariant; the API port is untouched |
| MeshWifi.WifiLayer.LoopWifi | src/meshwifi/meshwifi.cpp:102-107 | Appends ApiLoop iff the API port exists |
| MeshWifi.WifiLayer.InitApiServer | src/meshwifi/meshwifi.cpp:109-116 | Afterwards the port exists; ApiInit is appended iff it did not exist before, otherwise nothing changes |
| MeshWifi.WifiLayer.WiFiEvent | src/meshwifi/meshwifi.cpp:118-216 | The new port flag and the appended actions are those of EventEffect: rejoin on STA_DISCONNECTED, web and API server start on STA_GOT_IP and AP_START, nothing on every other event |
| MeshWifi.WifiLayer.StartServers | src/meshwifi/meshwifi.cpp:151-153 | Appends InitWebServer unconditionally, then ApiInit only if the port did not exist; the port exists afterwards |
| MeshWifi.WifiLayer.HandleDNSResponse | src/meshwifi/meshwifi.cpp:218-223 | Appends DnsProcess iff the access-point flag is set |
| MeshWifi.WifiLayer.ReconnectWiFi | src/meshwifi/meshwifi.cpp:225-240 | Appends SetMode(STA) then Begin with the stored credentials iff preferences and both credentials exist, otherwise nothing; the preferences are not written |

## Left out

- The behaviour of the foreign calls (`WiFi.mode`, `WiFi.onEvent`, `WiFi.softAPConfig`,
  `WiFi.softAP`, `WiFi.begin`, `DNSServer`, `WiFiServerPort::init`/`loop`,
  `initWebServer`): they appear only as logged actions.
- The results of `WiFi.softAP` and `WiFi.begin`: the code only prints them, so they affect
  no state and are not recorded.
- Diagnostic output (`DEBUG_MSG`, `Serial.println`, address formatting) and the address
  queries made only for it (`WiFi.softAPIP`, `WiFi.localIP`). The call `WiFi.softAP` at
  meshwifi.cpp:79 appears only as an argument of `DEBUG_MSG`, whose definition is not part
  of this model; the model assumes the macro evaluates its arguments, so `SoftAP` is
  always appended in access-point bring-up.
- The effect of registering the event handler more than once: a second initWifi appends a
  second `OnEvent`, but how the driver then delivers events is not modelled.
- Concurrency: the driver delivers events from its own task while the main loop runs. The
  model treats events as sequential method calls in delivery order.
- The power-save erratum described in the comment of `deinitWifi` and the "every 10
  seconds" reconnect comment: neither is implemented by code, so neither is modelled.
- The commented-out test configuration block inside initWifi.
- The size of the preferences buffers: the protobuf record that declares them is not part
  of this model, so buffers of any length are accepted.
- The API server's TCP port (4403): it is fixed inside `WiFiServerPort`, which is not part
  of this model, so `ApiInit` carries no port.
