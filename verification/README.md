# WyzePlug_Switch: device resolution and command selection

This project models the core of a home-automation switcher. The switcher turns a device
nickname into a command for one of two cloud vendors: Wyze smart plugs, and SwitchBot
curtains, hubs and infrared remotes. It works either from the command line
(`--on|--off|--toggle|--open|--close <nickname>`, `--list`, `--refresh`) or as a daemon
that handles JSON messages `{"name": ..., "command": ...}` from a message bus.

The model covers the decision logic. The network, the vendor SDK, the cache file and the
message bus are replaced by their inputs and outputs.

- `Common` (common.dfy): Option/Result, the Python exceptions the code raises, Python's
  substring test `needle in hay` (`Contains`, proved equal to the existence of an
  occurrence), and the first-match scan `FirstIndex` behind every lookup loop.
- `SwitchBot` (switchbot.dfy), the `Switchbot` client:
  - the device-list response is a datatype, and `get_devices` is a loop-based method;
  - `get` is a first-match lookup followed by type classification into a tagged `Handle`
    (Hub, Curtain, IRRemote);
  - each command method is a function that returns the POST requests it would send.
- `Switch` (switch.py, lines 42-145):
  - list and search modes of both vendor lookups;
  - `which_service`, the vendor choice;
  - `wyze_toggle`.
- `SwitchCli` (switch.py, lines 155-277):
  - which argument shapes are accepted;
  - the (service, action) table of the command line and of the message handler;
  - the cache refresh and the `--list` listing.

Behaviours of the code worth knowing before reading the model:
- `which_service` chooses the vendor by substring match and tries Wyze first. A nickname can therefore be claimed by a Wyze plug whose exact lookup then fails
  (`SwitchCli.SubstringChoiceShadowsExactSwitchBotName`).
- Failures are the Python exceptions the code raises: KeyError, AttributeError, NameError,
  TypeError, IndexError and `Exception(message)`.
- An unsupported action is an AttributeError on the handle (or on None). An unsupported
  (service, action) pair silently does nothing.
- A SwitchBot account with no devices is listed as None rather than as an empty list.

## Model

| member | source | states |
|---|---|---|
| `Common.Contains` | switchbot.py:40-42 | Python's `needle in hay` holds exactly when `needle` occurs at some position of `hay` |
| `SwitchBot.Connect` | switchbot.py:5-11 | an empty token is refused with an exception; otherwise the client keeps the token as its Authorization value and the fetched response |
| `SwitchBot.GetDevices` | switchbot.py:14-23 | returns `len(deviceList) + len(infraredRemoteList)` records: the deviceList entries first, then the remotes, each group in order. Each record copies the name and id; the type comes from `deviceType` for devices and from `remoteType` for remotes. A missing type key is a KeyError. The result agrees with `DeviceRecords` |
| `SwitchBot.RecordsFollowEntries` | switchbot.py:18-32 | the k-th listed record has the name and id of the k-th entry of `deviceList + infraredRemoteList`, the list that `get` scans |
| `SwitchBot.KindOf` | switchbot.py:40-47 | a type containing "Hub" is a hub. Otherwise a type containing "Curtain" is a curtain. Otherwise exactly "TV" or "DIY Projector" is an infrared remote. Anything else is unsupported |
| `SwitchBot.Classify` | switchbot.py:36-47 | the type is `deviceType`, or `remoteType` when that is absent. An unsupported type gives None. A handle has the classified kind, the entry's id and name, and the client's authorization. A KeyError happens exactly when the type key or the key the constructor reads is missing |
| `SwitchBot.Get` | switchbot.py:25-48 | an empty or absent query gives None. Otherwise the first entry matching by name or id decides the result through `Classify`. No match gives None |
| `SwitchBot.LaterEntriesIgnored` | switchbot.py:33-47 | two responses that agree up to a matching entry give the same `get` result, whatever follows, even when the first match classifies to None |
| `SwitchBot.TargetOfCommandsUrl` | switchbot.py:67 | the commands URL `/v1.0/devices/{id}/commands` parses back to the id it was built from |
| `SwitchBot.Open` | switchbot.py:66-69 | exactly one `{command: turnOn}` request, to the curtain's commands endpoint, with its authorization |
| `SwitchBot.Close` | switchbot.py:71-75 | exactly one `{command: turnOff}` request, to the curtain's commands endpoint |
| `SwitchBot.RemoteOn` | switchbot.py:101-109 | exactly one request to the remote: `Power`/`customize` when the device *name* contains "Projector", otherwise `turnOn` |
| `SwitchBot.RemoteOff` | switchbot.py:111-121 | for a "Projector" name, the `on` request twice. Otherwise exactly one `turnOff`. Every request goes to the remote |
| `SwitchBot.Perform` | switchbot.py:51-121 | a method call succeeds exactly for open/close on a curtain and on/off on a remote, and every other command word is an AttributeError. "open" sends `Open`, "close" sends `Close`, "on" sends `RemoteOn` and "off" sends `RemoteOff`. A successful call sends at least one request, all to that device |
| `Switch.ListWyzeNicknames` | switch.py:50-54 | the Wyze nicknames, one per device, in device order |
| `Switch.FindWyzePlug` | switch.py:55-63 | the first device whose nickname equals `nick` exactly. When no device does, the "Named device not found on Wyze account." exception |
| `Switch.ListSwitchBotDevices` | switch.py:74-79 | a copy of every listed SwitchBot record, in order. None exactly when the listing is empty |
| `Switch.GuardMatchesScan` | switch.py:80-83 | the search-mode exact-match guard over listed records holds exactly when `get` has a matching entry to scan |
| `Switch.FindSwitchBotDevice` | switch.py:69-83 | an empty token or a listing KeyError propagates. Otherwise the result equals `get(nick)`, so the guard never changes the outcome |
| `Switch.WhichService` | switch.py:138-145 | "wyze" exactly when `nick` is a substring of some Wyze nickname, whatever the SwitchBot list holds. "switchbot" exactly when no Wyze nickname contains it and some SwitchBot name (never an id) does. None when neither does. A None SwitchBot listing reached in the scan is a TypeError |
| `Switch.WyzeToggleAsWritten` | switch.py:101-109 | as written, toggling always raises NameError (`turn_off` when the plug is on, `turn_on` otherwise) |
| `Switch.WyzeToggle` | switch.py:106-109 | one command to the plug: off when it reports on, on otherwise. The plug's state after it is the opposite of its state before |
| `Switch.ToggleTwiceRestores` | switch.py:106-109 | toggling twice returns the plug to its original state |
| `SwitchCli.ParseArgs` | switch.py:182-277 | an action flag with a non-empty nickname, `--list`, `--refresh` and `--daemon`/`--server` are accepted. A missing argument is an IndexError. Everything else is "Invalid option.", including an action flag with an empty nickname |
| `SwitchCli.Invoke` | switch.py:224-232 | calling a command method on None is an AttributeError. On a handle it succeeds exactly when the class has the method, issues exactly the requests that method (`Perform`) sends, and every request goes to that device |
| `SwitchCli.CliDispatch` | switch.py:214-232 | the table with the corrected toggle. An unowned nickname issues nothing. A command is issued only for the pairs Wyze×{on, off, toggle} and SwitchBot×{on, off, open, close}. For a Wyze nickname, a failed exact lookup propagates its exception; otherwise `--on` turns the found plug on, `--off` turns it off and `--toggle` runs `WyzeToggle` on it. For a SwitchBot nickname and a handled flag, a lookup failure propagates; otherwise the found device runs the method named by the flag without its `--`. An ignored pair (`--open`/`--close` on a Wyze plug, `--toggle` on a SwitchBot nickname) still runs the exact lookup, propagates its failure, and otherwise issues nothing without raising |
| `SwitchCli.CliDispatchAsWritten` | switch.py:214-232 | as written, `--toggle` on a Wyze plug the exact lookup finds is the NameError of `wyze_toggle`. Every other input, including `--toggle` on a Wyze-owned nickname whose lookup fails, has the same outcome as `CliDispatch` |
| `SwitchCli.CliCommandsReachNamedDevice` | switch.py:214-232 | every command issued goes to a device that the nickname names exactly: a Wyze plug with that nickname, or a SwitchBot entry with that name or id |
| `SwitchCli.DaemonDispatchAsWritten` | switch.py:241-245 | as written, every message ends in an exception: KeyError without "name", TypeError otherwise. No command is issued |
| `SwitchCli.DaemonDispatch` | switch.py:241-264 | a message without "name" is a KeyError. A failed `which_service` is a TypeError. A nickname no vendor owns issues nothing, without reading "command". A failed vendor lookup raises its own exception before "command" is read. Once a vendor's lookup has found the device, a missing "command" is a KeyError |
| `SwitchCli.CliAndDaemonTablesAgree` | switch.py:214-263 | for every word w, the message `{"name": nick, "command": w}` has the same outcome as the command line `--w nick` |
| `SwitchCli.RefreshDevices` | switch.py:125-130 | the snapshot holds the Wyze nicknames in order and the SwitchBot listing (None when empty). A SwitchBot login or listing failure aborts the refresh |
| `SwitchCli.ListDevicesAsWritten` | switch.py:191-207 | as written, the uncached branch of `--list` (reached only when the start-up refresh reported failure) raises NameError. With a cache it shows the cached lists, and fails when the SwitchBot listing is None |
| `SwitchCli.ListDevices` | switch.py:191-207 | with a cache, `--list` behaves as written. On the uncached branch it shows the lists just fetched |
| `SwitchCli.SubstringChoiceShadowsExactSwitchBotName` | switch.py:214-216 | "Lamp" is claimed by the Wyze plug "Office Lamp". As written, its exact lookup then raises, although a SwitchBot device is named exactly "Lamp" |
| `SwitchCli.ToggleCommandCase` | switch.py:214-222 | `--toggle "Office Lamp"` for a Wyze plug that is on: NameError on `turn_off` as written; as intended, exactly one turn-off of that plug |
| `SwitchCli.DaemonOnMessageCase` | switch.py:245-249 | `{"name": "Office Lamp", "command": "on"}` for a Wyze plug: a TypeError as written; as intended, exactly one turn-on of that plug |

## Left out

- HTTP transport: the GET in `Switchbot.__init__` is an input (`DeviceLists`). Each POST
  is a `Post` value in the returned sequence. Responses are ignored, as the code ignores them.
- `Curtain.status` and `IRRemote.status`: each is only a GET whose response is handed back,
  so there is no decision to model.
- The Wyze SDK (`Client`, `devices_list`, `plugs.info`, `plugs.turn_on/turn_off`) is a
  foreign library:
  - the device list is an input;
  - `plugs.info` is taken to return the listed plug itself;
  - turning a plug on or off is an `Effect` value.
  - The `WyzeApiError` handler that prints and returns None is not modelled.
- `wyze_login`/`switchbot_login` configuration probing, including `wyze_login` returning None
  without credentials. This is configuration reading.
- `load_devices`, `dump_devices` and the cache-file existence checks are file I/O.
  - The cache is a `Snapshot` parameter.
  - `refresh_devices`' True/False, which comes from the file existing after the write, is
    not modelled.
- Which lists `CliDispatch`, `DaemonDispatch` and `ListDevices` consult (cache or live) is
  decided by the main block's global state. The lists are parameters instead.
- The order of the main block (the cache is loaded or refreshed before the argument check) is
  not modelled. Neither is the logging.
- The MQTT client (`on_connect`, `loop_forever`, KeyboardInterrupt) and JSON decoding are
  transport. A message is its decoded "name"/"command" keys.
- SwitchBot.RemoteOff: the two-second pause between the two Power requests is not modelled,
  only that two identical requests are sent.
- Entry keys other than `deviceType`/`remoteType` (`enableCloudService`, `hubDeviceId` and the
  curtain keys) are assumed present. So are `deviceName`/`deviceId`, the response's `body`
  and its `deviceList` and `infraredRemoteList` keys (read at switchbot.py:19, 21 and 31-32).
  Their absence would be further KeyErrors.
- The `--list` output formatting (headers, `name (type)` lines) is printing. The model says
  which lists are shown.
- `switchbot_find_device` and `wyze_find_device` as whole functions are modelled as their
  two modes (`ListSwitchBotDevices`/`FindSwitchBotDevice`, `ListWyzeNicknames`/`FindWyzePlug`).
  The login they each perform first is modelled only for SwitchBot (`Connect`).

## Findings

| source | as written | input that shows it | evidently intended | confidence | as-written member | corrected member |
|---|---|---|---|---|---|---|
| switch.py:106-109 | `wyze_toggle` calls `turn_off`/`turn_on`, which are not defined | `--toggle "Office Lamp"` for a Wyze plug that is on (`SwitchCli.ToggleCommandCase`) | call `wyze_turn_off`/`wyze_turn_on` | high; not executed | `Switch.WyzeToggleAsWritten`, `SwitchCli.CliDispatchAsWritten` | `Switch.WyzeToggle`, `SwitchCli.CliDispatch` |
| switch.py:245 | `on_message` calls `which_service` with one argument where three are required | message `{"name": "Office Lamp", "command": "on"}` | pass the device lists, as the command-line path does | high; not executed | `SwitchCli.DaemonDispatchAsWritten` | `SwitchCli.DaemonDispatch` |
| switch.py:195-201 | on its uncached branch, `--list` fetches into `rw`/`rs` but prints `wyze_devices`/`sb_devices`; a latent defect, since a missing cache file is normally refreshed and loaded first (switch.py:174-179) | `--list` when the start-up refresh reports failure, i.e. `dump_devices` (switch.py:119-123) does not find the file it has just written | print the lists just fetched | medium; not executed | `SwitchCli.ListDevicesAsWritten` | `SwitchCli.ListDevices` |
