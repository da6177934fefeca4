# OpenRGB to Hue Entertainment bridge — Dafny model

`OpenRGB-To-HUE.py` lets an E1.31 (sACN) controller such as OpenRGB drive
Philips Hue lights through the Hue Entertainment streaming API. This project
models the decision and translation logic of that script and proves what it
promises:

- **Translator** (`translator.dfy`): the per-packet translation. Light `idx`
  reads DMX channels `3*idx .. 3*idx+2` as red, green and blue, divided by 255.
  A light whose block the payload does not hold is skipped. `Translate` is the
  reference definition. The lemmas prove its closed form: exactly
  `min(numLights, |dmx| / 3)` pushes, the k-th being light k. From that they
  prove that a light is pushed iff its block is present, that indices strictly
  ascend, and that every component of a byte payload lies in [0, 1].
- **Bridge** (`bridge.dfy`): the `HueEntertainmentBridge` object. `Initialize`
  is its constructor: it selects the area, or fails before any streaming
  service exists. `OnDmxData` is the receiver callback. It increments
  `packetCount` and appends exactly `Translate(dmx, numLights)` to the
  streaming service's input log. The streaming library is a class whose
  `SetInput` appends to that log.
- **AreaSelection** (`area.dfy`): the selection loop of the constructor. It
  picks the first configuration, in iteration order, whose key equals the
  requested name after ASCII lowercasing. The reported area name is the
  requested string, not the key.
- **Multicast** (`multicast.dfy`): the multicast group `239.255.UHB.ULB` of a
  universe, as in section 9.3.1 of ANSI E1.31. The two octets recompose the
  universe modulo 65536, so they round-trip for 16-bit universes.
- **Pairing** (`pairing.dfy`): the button-press pairing loop and
  `ensure_app_key`. The 30-second window is replaced by the sequence of
  attempt outcomes seen before the deadline.
- **Settings** (`settings.dfy`): the default configuration path per platform,
  and the bridge-address precedence `--ip`, then the stored address, then
  discovery. The stored address is re-stamped only when it changes.
- **Catalog** (`catalog.dfy`): the `get_bridge_info` record with its fixed
  fallback, and the id-to-name table of the area listing.

Behaviour of the script kept as written:

- Areas are matched by dictionary key only. Display names are never compared.
  The loop's second test (lines 327-330) repeats the first test exactly, so it
  can never fire, and it has no counterpart in the model.
- When no area matches, the constructor raises "not found" even if the catalog
  is empty. Only the listing path of `main` reports an empty catalog separately.
- The pairing loop never fails on a non-button error. It records the
  description as the last error and keeps trying until the deadline.
- The code keeps no session-state field, so none is modelled.

## Model

| member | source | states |
|---|---|---|
| `Translator.Normalize` | OpenRGB-To-HUE.py:415-417 | the intensity times 255 gives back the byte; it lies in [0, 1] for a byte; 0 maps to 0 and 255 to exactly 1 |
| `Translator.TranslateClosedForm` | OpenRGB-To-HUE.py:407-417 | one packet yields exactly min(numLights, len(dmx) div 3) pushes, and push k is light k read from channels 3k, 3k+1, 3k+2 |
| `Translator.PushedIffCovered` | OpenRGB-To-HUE.py:407-410 | a light receives a push iff its index is below the light count and the payload holds its three-channel block; short payloads only skip lights |
| `Translator.PushesAscending` | OpenRGB-To-HUE.py:407-417 | the pushes of one packet carry strictly ascending light indices, so no light is pushed twice |
| `Translator.PushesInUnitRange` | OpenRGB-To-HUE.py:415-417 | for a payload of bytes, every pushed component lies in [0, 1] |
| `Translator.FullFrame` | OpenRGB-To-HUE.py:407-417 | a payload of exactly three channels per light yields one push per light, numbered 0 .. numLights-1 in order |
| `Translator.TwoLightExample` | OpenRGB-To-HUE.py:407-417 | two lights and [255,0,0,0,255,0] give (1,0,0,0) then (0,1,0,1) |
| `Bridge.Streaming.constructor` | OpenRGB-To-HUE.py:343-347 | a new streaming service has received no input |
| `Bridge.Streaming.SetInput` | OpenRGB-To-HUE.py:417 | the tuple is appended to the inputs and nothing else changes |
| `Bridge.HueEntertainmentBridge.constructor` | OpenRGB-To-HUE.py:296-354 | the bridge records the universe, the selected configuration and area name, has as many lights as the configuration has channels, a zero packet count and a fresh streaming service |
| `Bridge.HueEntertainmentBridge.Initialize` | OpenRGB-To-HUE.py:320-354 | fails with area-not-found iff no key matches; otherwise a fresh bridge over the first matching configuration, named by the requested string, with its light count, a zero packet count and an empty stream |
| `Bridge.HueEntertainmentBridge.OnDmxData` | OpenRGB-To-HUE.py:384-423 | the packet count grows by one, and the stream receives exactly the packet's translation appended after what it had |
| `AreaSelection.Lower` | OpenRGB-To-HUE.py:322 | the result has the same length and no ASCII capital; every other character is unchanged, and each capital becomes the letter 32 code points above it |
| `AreaSelection.SelectArea` | OpenRGB-To-HUE.py:320-333 | no result iff no key matches the requested name ignoring case; otherwise the configuration of the first matching key, with the requested string as the area name |
| `AreaSelection.LowerIdempotent` | OpenRGB-To-HUE.py:322 | lowercasing twice is lowercasing once |
| `AreaSelection.MatchIgnoresCase` | OpenRGB-To-HUE.py:322 | a key matches a name iff it matches the name's lowercase form |
| `AreaSelection.MatchIsExact` | OpenRGB-To-HUE.py:322 | a matching key has the length of the requested name, so prefixes never match |
| `Multicast.UniverseOctets` | OpenRGB-To-HUE.py:382 | both octets lie in 0..255 for every integer universe |
| `Multicast.GroupAddress` | OpenRGB-To-HUE.py:382 | the group address is 239.255 followed by two byte-sized octets that recompose the universe modulo 65536 |
| `Multicast.OctetsRecompose` | OpenRGB-To-HUE.py:382 | high octet times 256 plus low octet equals the universe modulo 65536 |
| `Multicast.OctetsRoundTrip` | OpenRGB-To-HUE.py:382 | for a universe in 0..65535 the octets recompose the universe |
| `Multicast.GroupAddressInjective` | OpenRGB-To-HUE.py:382 | distinct 16-bit universes have distinct group addresses |
| `Pairing.CreateEntertainmentUser` | OpenRGB-To-HUE.py:147-199 | succeeds iff some attempt carries both username and client key; then it returns that pair from the first such attempt, both non-empty, and makes no attempt after it; otherwise it uses every attempt and fails, carrying the description of the last error or request failure, the value the source prints |
| `Pairing.ButtonNeverPressed` | OpenRGB-To-HUE.py:175-199 | when every attempt is the same error, no attempt pairs and the last error is that description |
| `Pairing.LastErrorSkipsQuietOutcomes` | OpenRGB-To-HUE.py:157-184 | incomplete successes and unrecognised bodies never change the last error |
| `Pairing.EnsureAppKey` | OpenRGB-To-HUE.py:202-235 | with re-pairing: succeeds iff pairing does, returns the first complete pair, and overwrites `app_key` and `clientkey` with it and stamps `updated_at`; a pairing failure carries that last error description. Without re-pairing: succeeds iff the chosen username and the stored client key are both non-empty, returning them and the unchanged configuration; otherwise fails with missing-clientkey when only the username exists, and no-credentials when nothing exists |
| `Settings.DefaultConfigPath` | OpenRGB-To-HUE.py:71-76 | no path results iff the home directory cannot be determined, even when the variable is set (the fallback is computed first); otherwise the path always ends in hue_cli/config.json; on Windows it lies under APPDATA whenever that variable is set, even to the empty string (then the path is relative: hue_cli/config.json), else under AppData/Roaming in the home directory; elsewhere the same holds with XDG_CONFIG_HOME and .config |
| `Settings.ConfigPathIgnoresForeignVariable` | OpenRGB-To-HUE.py:71-76 | Windows never reads XDG_CONFIG_HOME, and other systems never read APPDATA |
| `Settings.ResolveBridgeIp` | OpenRGB-To-HUE.py:535-544 | fails iff the command-line, stored and discovered addresses are all empty or absent; otherwise it takes the first non-empty one, in that order; the configuration is unchanged when it already stores that address, and otherwise it gets the address and a new stamp |
| `Settings.ResolveIsStable` | OpenRGB-To-HUE.py:535-544 | resolving again from the updated configuration gives the same address and leaves the configuration and its stamp unchanged, whatever discovery returns |
| `Catalog.GetBridgeInfo` | OpenRGB-To-HUE.py:250-275 | the software version is always 1962097030; a failed or empty query gives the fixed fallback record; otherwise the record's id and app id are the first resource's id, its rid is the owner rid or else the id, and its name is the metadata name or else "Hue Bridge" |
| `Catalog.BridgeInfoIdentified` | OpenRGB-To-HUE.py:258-275 | when the bridge reports an id, or the fallback is used, the id, rid and app id are all non-empty |
| `Catalog.GetEntertainmentAreaNames` | OpenRGB-To-HUE.py:278-290 | a failed query gives an empty table; otherwise the table's keys are exactly the area ids, and each maps to the metadata name, or else the id, of the last area with that id |
| `Catalog.DisplayNameOfArea` | OpenRGB-To-HUE.py:283-287 | the name listed for an id (line 614) is the label of the last area carrying it, or the id itself when the table lacks it |

## Left out

- HTTP requests (discovery, pairing POST, bridge and area queries) are not modelled. Their results are inputs: a sequence of attempt outcomes, or an optional resource list where `None` stands for a query that raised.
- Discovery is an input to `Settings.ResolveBridgeIp`. The model does not capture that the source calls discovery only when the first two sources are empty.
- The configuration file is not modelled. Reading and writing it (`load_config`, `save_config`) is file I/O that swallows every error. All configuration values are modelled as strings.
- The sACN receiver is not modelled: its multicast join, listener registration, thread and callback dispatch belong to a foreign library. Each callback is one sequential call of `OnDmxData`. The local-IP probe socket is diagnostics only.
- The Hue Entertainment library calls are not modelled (`Entertainment`, `create_bridge`, `start_stream`, `set_color_space`, `stop_stream`). `set_input` is kept only as an append to a log. So `start_streaming` (re-raises failures) and `stop_streaming` (swallows them) are not modelled.
- Logging, printing and command-line parsing are presentation. This covers the first-packet and every-500th-packet logs, the waiting dots, `print_config`, argparse and the exit codes.
- Wall-clock time is not modelled: the 30-second deadline, the 2-second sleep and the `KeyboardInterrupt` run loop. An attempt sequence stands for the deadline.
- Bridge.HueEntertainmentBridge.OnDmxData: float rounding of `byte / 255.0` is not modelled. Intensities are exact reals. The catch-all `except` has nothing to catch in the model, since the model never raises.
- AreaSelection.Lower: only ASCII letters are lowercased. Python's `str.lower()` also lowercases other Unicode letters.
- Bridge.HueEntertainmentBridge.Initialize: the selected configuration object is assumed truthy (line 332). The model treats a match as always found.
- Pairing.EnsureAppKey: the configuration is returned as a new map. Python updates the caller's dict in place and returns the same object, so the aliasing is not modelled. The timestamp is an input.
- Pairing.CreateEntertainmentUser: an item holding both "success" and "error" is not a modelled outcome. Neither is a body whose JSON fails to parse with a non-request exception.
- Catalog.GetBridgeInfo: a metadata name present with a null value is not distinguished from an absent one. An `"owner": null` field makes line 260 raise, so the source returns the fallback record; the model has no such input and takes the rid from the id only when the owner has no usable rid.
- Pairing.CreateEntertainmentUser: the failure value carries the last error description, which the source only prints (lines 194-195); the raised `RuntimeError` has a fixed message. An empty description is not printed by the source, yet the model still carries it.
- Pairing.EnsureAppKey: a re-pairing failure carries the same printed description, not the exception the source raises.
- Pairing.CreateEntertainmentUser: a first item that is not an object (such as `[5]`) raises an uncaught `TypeError` at line 160 and ends pairing; this is not a modelled outcome.
- Catalog.GetEntertainmentAreaNames: an area without an `id` is not modelled; every area resource is assumed to have one. An area with `"metadata": null` makes line 285 raise, which empties the whole table; the model has no such input.
