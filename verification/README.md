# pomice core, modelled in Dafny

pomice is a Python client for Lavalink audio nodes, used from discord.py bots.
This project models the decision logic at its core, in four modules.

- **`Pool`** (`pool.dfy`) is the node registry.
  - `NodePool` maps identifiers to `Node`s and keeps their insertion order. `GetNode` picks the least-loaded available node, earliest-registered on ties, or looks one up by identifier. `CreateNode` refuses duplicate identifiers and registers a node only once it has connected.
  - `Node` builds its endpoints and handshake headers. `Send` refuses to write while the node is unavailable. `HandlePayload` routes a frame from the node: stats, then dispatch to the guild's player. `Disconnect` destroys the players and closes the socket, and then fails to delete the pool entry (see Findings).
  - The websocket is a state plus a log of written messages. The calls made on players are recorded in order.
- **`TrackResolution`** (`resolution.dfy`) is `get_tracks` and `build_track`.
  - A plain query is rewritten into a search.
  - The three URL regular expressions are exact segment parsers.
  - The Spotify, Discord-attachment and generic branches are routed in that order.
  - The node's `loadType` is decoded into an error, a playlist, a list of tracks, or nothing.
  - The node's HTTP answers and the Spotify client are function parameters.
- **`Filters`** (`filters.dfy`) holds the filter constructors.
  - It models range validation and the JSON payload each filter sends.
  - It includes the equalizer's normalisation of `(band, gain)` pairs to 15 numbered bands and the four presets.
- **`SpotifyArtist`** (`artist.py` → `artist.dfy`) is the "top tracks by artist" record built from Spotify JSON.

`Results` (`results.dfy`) holds the shared `Option` and `Result` types.

Behaviours of the code worth knowing, all modelled as written:

- **One Spotify credential.** With only one of the two credentials set, a Spotify link fails with `NoSpotifyClient`. This is the `AttributeError` of a client that was never created; it is not `InvalidSpotifyClientAuthorization`.
- **Unknown `loadType`.** An unrecognised `loadType` returns nothing (`NoResult`) instead of raising.
- **`Disconnect`.** A node's `pool` is the `NodePool` class, so `self._pool.nodes` is the `property` object and the `del` raises `TypeError` right after the socket is closed. The entry stays in the pool, the separate `available` attribute is never set, and `_available` stays set, so `GetNode` keeps returning the closed node. A second `Disconnect` fails the same way.
- **`Send` on an unavailable node.** The refusal formats `self.identifier`, which a node does not have, so it raises `AttributeError` instead of `NodeNotAvailable`.
- **Empty pool.** When no registered node is available, `GetNode` with an identifier fails with `NoNodesAvailable` rather than returning nothing.

## Model

| member | source | states |
|---|---|---|
| Pool.NodePool.constructor | pomice/pool.py:432 | the registry starts empty and consistent |
| Pool.NodePool.Best | pomice/pool.py:449-460 | picks an available node whose load is minimal among the available ones, and none earlier in registration order has equal load (the stable sort's first element); none exactly when no node is available |
| Pool.NodePool.GetNode | pomice/pool.py:446-462 | fails with "There are no nodes available." exactly when no registered node is available, identifier or not; without an identifier returns an available node of least player count, earliest registered on ties; with an identifier returns that node iff it is registered and available, and nothing otherwise |
| Pool.NodePool.CreateNode | pomice/pool.py:464-492 | a taken identifier fails with the duplicate message and a failed connect passes its error on, both leaving the registry unchanged; otherwise the registry gains exactly the new, connected node under its identifier, appended last in order, and that node has no players, has made no player calls, has written only the resume message and is consistent |
| Pool.NodePool.Remove | pomice/pool.py:253 | the deletion `disconnect` means to make, applied to the registry itself (`_nodes`): deletes exactly one entry and keeps the registry consistent and the order of the others |
| Pool.Node.constructor | pomice/pool.py:55-107 | endpoints derive from `secure`, host and port; headers carry the password, the user id in decimal, `Pomice/<version>` and the resume key; nothing is open or available |
| Pool.Node.Send | pomice/pool.py:208-214 | as written: fails iff `_available` is unset, with the `AttributeError` on `identifier`, and then writes nothing; otherwise appends exactly the message; no other state changes |
| Pool.Node.SendIntended | pomice/pool.py:208-214 | corrected: the same, but the refusal is "The node '<id>' is unavailable." (`NodeNotAvailable`) |
| Pool.Node.Connect | pomice/pool.py:220-243 | succeeds iff the handshake does; then the socket is open, the node available and exactly the `configureResuming` message (key `myResumeKey`, timeout 60) is written; each handshake failure gives its own message and changes nothing; the players, their order and the player calls never change |
| Pool.Node.HandlePayload | pomice/pool.py:191-206 | no `op`: nothing changes; `stats`: only the stats are replaced; otherwise a missing `guildId` fails, a guild without a player is dropped with no effect, `event` dispatches once and `playerUpdate` updates state once to that guild's player, and the stats stay; the players and their order never change |
| Pool.Node.DestroyPlayers | pomice/pool.py:249-250 | one destroy call per player, in the players dictionary's order, and nothing else changes |
| Pool.Node.Disconnect | pomice/pool.py:245-255 | as written: always fails; without a socket with the `AttributeError` before closing, otherwise with the `TypeError` of the `del` after the destroys and the close; the pool, `_available` and the `available` attribute are left as they were |
| Pool.Node.DisconnectIntended | pomice/pool.py:245-255 | corrected: the destroys and the close; no socket fails before the pool is touched, a missing pool entry fails with `NotInPool`, else the entry is deleted and the separate `available` attribute set false while `_available` stays |
| Pool.DisconnectDestroysEachPlayerOnce | pomice/pool.py:249-250 | the destroy calls number exactly the players, each destroys one of them, and none is missed |
| Pool.SendBeforeConnect | pomice/pool.py:208-214 | on a node that has not connected, the code's `send` raises the `AttributeError`, while the intended one raises `NodeNotAvailable` naming the node |
| Pool.DisconnectKeepsNodeInPool | pomice/pool.py:245-255 | disconnecting the only node of a pool fails with the `TypeError` after closing its socket, and `get_node` still returns that node |
| Pool.DisconnectIntendedEmptiesPool | pomice/pool.py:245-255 | with the intended deletion, the same disconnect succeeds and `get_node` then raises `NoNodesAvailable` |
| Pool.DecimalString | pomice/pool.py:92 | `str` of a user id: non-empty decimal digits with no leading zero, whose value is the id |
| Pool.EndpointsAgree | pomice/pool.py:79-80 | the websocket and REST endpoints end in the same `host:port`, and `secure` selects `wss` and `https` together |
| TrackResolution.Span | pomice/pool.py:39-42 | a greedy character-class run: every character counted is in the class, the next one is not |
| TrackResolution.NoSchemeNoLink | pomice/pool.py:35-46 | a query not starting with `h` matches neither the Spotify nor the attachment pattern and takes the generic branch |
| TrackResolution.GetTracks | pomice/pool.py:282-425 | a Spotify-credential error or a Spotify playlist only comes from a query matching the Spotify pattern, and an empty track list error only from one matching the attachment pattern |
| TrackResolution.GenericRouteLoads | pomice/pool.py:299-300 | a query holding a URL, or a local one, that is neither a Spotify nor an attachment link is loaded unchanged and decoded by its `loadType` |
| TrackResolution.SearchTextIsPrefixed | pomice/pool.py:299-300 | a query with no URL, not local, is loaded as `"<search_type>:<query>"` and decoded |
| TrackResolution.SpotifyKindOf | pomice/pool.py:35-37 | the alternation `album\|artist\|playlist\|track` recognises each kind and only it |
| TrackResolution.SpotifyLinkOfUrl | pomice/pool.py:35-37 | `https://open.spotify.com/<kind>/<id>` is a URL and matches with exactly that kind and id |
| TrackResolution.SpotifyNeedsCredentials | pomice/pool.py:302-310 | a Spotify link with neither credential fails with `InvalidSpotifyClientAuthorization`; with both it is the Spotify client's result |
| TrackResolution.FromSpotifyTrack | pomice/pool.py:312-328 | a Spotify track becomes a track marked Spotify, with no source name, seekable, not a stream, at position 0, titled and credited from Spotify |
| TrackResolution.FromSpotify | pomice/pool.py:310-359 | one Spotify track gives a one-element list; a collection gives a Spotify playlist with its name, image, uri, selected track 0 and one track per entry in order |
| TrackResolution.AttachmentFileOfUrl | pomice/pool.py:39-42 | the attachment pattern matches a URL made of channel digits, message digits and a file name, and captures the whole file name |
| TrackResolution.AttachmentUrlIsNotSpotify | pomice/pool.py:35-46 | an attachment URL counts as a URL and is not a Spotify link |
| TrackResolution.AttachmentTrackTitle | pomice/pool.py:361-386 | an attachment URL yields exactly one track with the node's first entry, titled after the file, from source `http`, by `Unknown`, at position 0; an empty track list fails |
| TrackResolution.DecodeLoad | pomice/pool.py:395-425 | no `loadType`: NO_LOADTYPE error; `NO_MATCHES`: its error; `LOAD_FAILED`: `"<message> [<severity>]"`; `PLAYLIST_LOADED`: a playlist with the node's name and selected track whose tracks give back the node's entries; `SEARCH_RESULT`/`TRACK_LOADED`: one track per entry, in order, with the search type; any other: nothing |
| TrackResolution.BuildTrack | pomice/pool.py:257-280 | fails with the build message iff the status is not 200; otherwise the track carries the identifier and the decoded info |
| Filters.Factory | pomice/filters.py:40-47 | exactly 15 entries, entry i naming band i |
| Filters.AbsorbUntouched | pomice/filters.py:44 | updating with pairs that never name band k leaves k's entry as it was |
| Filters.AbsorbLast | pomice/filters.py:44 | after the update, band k holds the gain of the last pair naming it |
| Filters.AbsorbAppend | pomice/filters.py:44 | updating with a concatenation updates with the parts in turn |
| Filters.FactoryLastGain | pomice/filters.py:41-47 | band i's gain is that of the last pair supplied for band i |
| Filters.FactoryMissingGain | pomice/filters.py:42-45 | a band no pair names has gain 0 |
| Filters.FactoryIgnoresOutOfRange | pomice/filters.py:44-45 | appending pairs for bands outside 0..14 changes nothing |
| Filters.FactoryOfOrderedLevels | pomice/filters.py:41-47 | pairs listing bands 0..14 in order come out with exactly their gains |
| Filters.PayloadConforms | pomice/filters.py:12-358 | every filter's payload names at most one filter object, with exactly that object's schema keys, or 15 bands numbered 0..14 |
| Filters.DistortionHasEightKeys | pomice/filters.py:330-339 | the distortion object has exactly eight keys |
| Filters.NoFilter | pomice/filters.py:15-17 | the empty filter's payload is empty |
| Filters.Equalizer | pomice/filters.py:27-33 | keeps its name and raw levels, and its payload is 15 bands under `equalizer` |
| Filters.FlatIsFlat | pomice/filters.py:67-76 | the flat preset is bands 0..14, every gain 0 |
| Filters.BoostAndMetalGains | pomice/filters.py:78-99 | the boost and metal presets give each of the 15 bands its listed gain |
| Filters.PianoBands | pomice/filters.py:101-111 | the piano preset gives bands 0..13 their listed gain and band 14, never named, gain 0 |
| Filters.Timescale | pomice/filters.py:122-144 | fails iff speed, pitch or rate is negative, with the first failing guard's message; otherwise exactly the three values under `timescale` |
| Filters.Karaoke | pomice/filters.py:155-173 | the four settings copied unchanged under `karaoke` |
| Filters.Tremolo | pomice/filters.py:187-206 | fails iff the frequency is negative or the depth is outside [0, 1], with the matching message; otherwise both values under `tremolo` |
| Filters.Vibrato | pomice/filters.py:217-236 | fails iff the frequency is outside [0, 14] or the depth outside [0, 1], with the matching message; otherwise both values under `vibrato` |
| Filters.Rotation | pomice/filters.py:247-251 | the rate copied under `rotation.rotationHz` |
| Filters.ChannelMix | pomice/filters.py:262-294 | as written: never fails, and the four ratios are copied to their camelCase keys |
| Filters.ChannelMixAcceptsOutOfRange | pomice/filters.py:272-283 | a `left_to_left` of 2 passes the guard, although it is outside [0, 1] |
| Filters.ChannelMixChecked | pomice/filters.py:272-294 | with the intended guard, fails iff some ratio is outside [0, 1], and otherwise builds the same filter as the code |
| Filters.Distortion | pomice/filters.py:307-339 | the eight settings copied unchanged, under exactly the schema's eight keys |
| Filters.LowPass | pomice/filters.py:354-358 | the smoothing copied under `lowPass` |
| SpotifyArtist.LastImageUrl | pomice/spotify/artist.py:13-16 | the URL of the last image when the list is present and non-empty, and nothing otherwise |
| SpotifyArtist.FromJson | pomice/spotify/artist.py:7-17 | the name is "Top Tracks by " followed by the artist's name, which is also `artists`; one track per response entry, in order; the total equals the count; the image is the last image URL or none; id and uri are copied |

## Left out

- The websocket itself, `_listen`, the backoff, reconnect scheduling, `heartbeat` and `bot.wait_until_ready`. `Connect` takes the handshake's outcome as a parameter.
- What the websocket library does on a write to a closed socket. `Send` consults only `_available`.
- The HTTP requests and URL quoting of `/loadtracks` and `/decodetrack`, and the Spotify client's search. Their answers are parameters.
- Missing `tracks` or `info` keys in a load response, and a non-numeric `guildId`. The datatypes always carry these fields.
- `latency`, `NodeStats` parsing and `_update_handler`. A stats frame is stored as received.
- `Player` internals: `destroy`, `_dispatch_event`, `_update_state`. Their invocations are recorded in `calls`. Whatever `destroy` does to the node's `players` is not modelled.
- How players are added to a node. `players` and `playerOrder` are state the model only reads.
- `Track`, `Playlist` and the exception classes (pomice/objects.py, pomice/exceptions.py). These files, pomice/enums.py and `pomice/__init__.py` are not part of this model. A playlist from the node is assumed to build one track per entry, with the search type.
- The discord.py `ctx` carried on tracks, `__repr__`/`__str__`, and the `Equalizer.raw` alias.
- `KeyError`s on malformed Spotify artist JSON. The record is built from well-formed input.
- Python's `float` arithmetic, including NaN. Filter settings are `real`, since they are only compared and copied. A NaN fails every comparison, so `Timescale`, `Tremolo` and `Vibrato` accept it in the code, where the model's `InRange` has no NaN to reject.
- `Pool.Node.Disconnect`: does not model the interleaving of the `await`s. Players are destroyed in the players dictionary's iteration order, before the socket is closed. `self._task.cancel()` is never reached as written and is not modelled.
- `Pool.NodePool.CreateNode`: does not model the race between the duplicate check and the insertion. They are separated by `await node.connect()`, so two concurrent calls with one identifier can both pass the check, and the second then replaces the first, still-connected node. The model runs each call to completion.

## Findings

| source | as written | input that shows it | evidently intended | confidence | as-written member | corrected member |
|---|---|---|---|---|---|---|
| pomice/pool.py:253 | `del self._pool.nodes[...]`, where `_pool` is the `NodePool` class and `nodes` on the class is the `property` object | any connected node: the `del` raises `TypeError` after the socket is closed, the entry stays and `get_node` keeps returning it | delete the entry from the registry (`_nodes`) and mark the node unavailable | not executed | Pool.Node.Disconnect, Pool.DisconnectKeepsNodeInPool | Pool.Node.DisconnectIntended, Pool.DisconnectIntendedEmptiesPool |
| pomice/pool.py:211 | the refusal formats `self.identifier`, which `Node` does not define | `send` on a node that is not available raises `AttributeError` | raise `NodeNotAvailable` with the node's identifier | not executed | Pool.Node.Send, Pool.SendBeforeConnect | Pool.Node.SendIntended, Pool.SendBeforeConnect |
| pomice/filters.py:272-283 | each guard is `0 > x > 1`, a chained comparison no number satisfies, so `ChannelMix` never raises | `left_to_left=2.0` is accepted and sent | raise `ValueError` when a ratio is below 0 or above 1, as the messages say | not executed | Filters.ChannelMix, Filters.ChannelMixAcceptsOutOfRange | Filters.ChannelMixChecked |
