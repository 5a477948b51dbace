# Custom audio broadcaster: room registry and push-session feed, in Dafny

This project models the two sequential cores of a broadcaster that manages "rooms" (paths)
on an external media relay and pushes live audio into them.

* **The room registry** (`Broadcaster`, include/broadcaster.hpp and src/broadcaster.cpp).
  This is a map from path to room data: title, description, `max_readers`, the five derived
  reader URLs, an optional audio pusher and an optional text provider. It has the operations
  create, delete, publish and unpublish (audio and text), list, client lookup and client kick.
  Every relay request is an input of type `Reply<T>`: either no response, or a status and an
  already parsed body. Each JSON field the code reads is either `Missing`, a string (`Str`) or
  some other JSON value (`NotString`). The registry is a class. Its state-changing methods
  state exactly which map entries change. The read-only parts (URL derivation, the client
  filter over `/v3/paths/list`, the choice of kick endpoint, the kick scan and the `/text`
  handler decision) are functions, with lemmas that characterise them for all inputs.
  The iteration order of a `std::map` is kept as a real field `order`: the keys in strictly
  ascending `std::string` order. `Valid()` ties it to the map's keys, and `kick_client` and
  `get_rooms` iterate over it.
* **The feed scheduler of a push session** (src/rtsp_pusher.cpp). This is the pair
  `sourceid` / `num_samples` driven by the need-data and enough-data signals and by the idle
  push task. A ghost set `attached` holds the idle sources the main loop still owns, and a
  ghost sequence `counts` holds every count the provider has returned. The timestamp and
  duration of a buffer are `gst_util_uint64_scale(x, GST_SECOND, rate)`, modelled as
  floor(x·10⁹ / rate).

Modules: `Wrappers` (Option/Result/Outcome), `OrderedKeys` (std::map key order), `Relay`
(relay replies and failure kinds), `Registry` (records and the `Broadcaster` class),
`RtspPusher` (the `FeedState` class and the timestamp arithmetic).

Notes on following the code:
* The code returns `void` from `publish_audio` and always replaces an existing pusher. Two
  header comments say otherwise: that a second publish "won't do anything", and that the
  function returns true/false. The model follows the code.
* `publish_audio` builds the new session with the fixed URL `"rtsp://localhost:8554/" + path`,
  not with the room's derived rtsp URL. The model records that URL in `Pusher.rtspUrl`.
* The push pipeline is constructed before it is assigned (src/broadcaster.cpp:121). If
  construction fails, the room (possibly just created) stays and the old pusher stays. If
  `start()` fails, the new pusher is already stored and the call still throws.
* The defaulted parameters of `create_new_room` and `publish_audio` keep their defaults in
  the model. The relay replies (and, for `publish_audio`, the pipeline's fate) are extra
  inputs, so they come before the defaulted parameters. `publish_audio` and `publish_text`
  create a missing room with every default, as the code does.
* A client type the code does not recognise sends no request. The empty `httplib::Result`
  then reports an "Http error" (`HttpError`).
* When `push_data` returns false, the main loop drops the idle source but `sourceid` keeps its
  value. Until enough-data clears it, need-data then schedules nothing
  (`FeedStallsAfterFailedPush` shows the sequence).
* The buffer timestamp is computed after the counter is incremented. It therefore marks the
  end of the buffer's samples, not their start (`TimestampStep`).
* The source field `type` of a client is called `kind` (`type` is a Dafny keyword).

## Model

| member | source | states |
|---|---|---|
| `OrderedKeys.BelowTransitive` | include/broadcaster.hpp:165 | the key comparison of the rooms map is transitive |
| `OrderedKeys.BelowTotal` | include/broadcaster.hpp:165 | any two different paths are ordered one way or the other |
| `OrderedKeys.Insert` | src/broadcaster.cpp:309 | inserting a key keeps the traversal strictly ascending and adds exactly that key |
| `OrderedKeys.Remove` | src/broadcaster.cpp:332 | erasing a key keeps the traversal strictly ascending and removes exactly that key |
| `OrderedKeys.AscendingUnique` | include/broadcaster.hpp:165 | the iteration order of the rooms map is determined by its set of keys |
| `Relay.CheckOk` | src/broadcaster.cpp:216-223 | a request succeeds iff a response came back with status 200; no response is an "Http error", any other status a status error |
| `Registry.DeriveUrls` | src/broadcaster.cpp:286-307 | succeeds iff all five address prefixes are strings, otherwise "Invalid json"; the URLs are the exact concatenations of scheme, host, prefix and path (with "/index.m3u8" for HLS and "?streamid=read:" for SRT) |
| `Registry.UrlsIdentifyPath` | src/broadcaster.cpp:291-302 | under one relay configuration, each of the five URLs determines the path |
| `Registry.RtspUrlExample` | src/broadcaster.cpp:291-298 | prefix ":8554", host "localhost", path "room1" give "rtsp://localhost:8554/room1" |
| `Registry.Provision` | src/broadcaster.cpp:259-307 | a negative `max_readers` fails before any request; then no response, or a status other than 200 or 400 on the add, fails; success iff the add is answered 200 or 400, the configuration is answered 200, and all prefixes are strings; on success the URLs are the derived ones |
| `Registry.AlreadyOnRelayIsSuccess` | src/broadcaster.cpp:270-274 | a 400 ("already exists") answer to the add is treated exactly like a 200 |
| `Registry.ReadersToClients` | src/broadcaster.cpp:233-236 | the readers become `{id, type}` clients, one per reader and in list order; a reader whose id or type is not a string makes the payload invalid |
| `Registry.FindFirstMatch` | src/broadcaster.cpp:229-239 | the clients are the readers of the first item named like the path, when every earlier item has a name that differs |
| `Registry.FindNoMatch` | src/broadcaster.cpp:229-240 | a path absent from the items has no clients |
| `Registry.FindMissingName` | src/broadcaster.cpp:225-245 | an item without a name, before the path's own item, makes the payload invalid |
| `Registry.ConnectedClientsExample` | src/broadcaster.cpp:225-240 | for items `[{name: "p", readers: [{id: "a", type: "rtspSession"}]}]`, the clients of "p" are `[{a, rtspSession}]` and those of any other path are none |
| `Registry.KickEndpoint` | src/broadcaster.cpp:170-186 | an endpoint exists iff the type is one of the four known ones; each type maps to its own `/v3/<transport>/kick/<id>` endpoint |
| `Registry.KickEndpointsDistinct` | src/broadcaster.cpp:171-186 | different (type, id) pairs are kicked through different endpoints |
| `Registry.FirstWithId` | src/broadcaster.cpp:166-169 | finds a client iff one has the id, and returns the first such client in list order |
| `Registry.KickNobody` | src/broadcaster.cpp:161-199 | when no room lists a client with the id, the kick succeeds with no request |
| `Registry.KickFirstHolder` | src/broadcaster.cpp:163-195 | only the first matching client of the first room (in key order) that has one is kicked, with a single request by its type |
| `Registry.Broadcaster.constructor` | include/broadcaster.hpp:159-165 | a new registry has no rooms, and the delete-in-destructor flag is false |
| `Registry.Broadcaster.DoesRoomExist` | src/broadcaster.cpp:248-251 | true exactly when the path is a key of the map, and hence appears in its iteration order |
| `Registry.Broadcaster.CreateNewRoom` | src/broadcaster.cpp:253-310 | an existing path is a no-op even with a negative `max_readers`; otherwise the outcome is that of the relay conversation; a single entry with no providers is inserted on success only, and nothing changes on failure; title, description and `max_readers` default to "", "" and 0 as declared at include/broadcaster.hpp:122 |
| `Registry.Broadcaster.DeleteRoom` | src/broadcaster.cpp:312-333 | no-op for an absent path; otherwise both providers are cleared before the relay call; only on a 200 is the entry erased; on failure the entry stays with both providers cleared; no other entry changes |
| `Registry.Broadcaster.PublishAudio` | src/broadcaster.cpp:114-123 | creates the room with default metadata when absent (nothing changes if that fails), then replaces the pusher (URL on localhost:8554, given provider, format, chunk size and rate); a pipeline build failure keeps the old pusher; metadata and the other entries are unchanged; chunk size and rate default to 1024 and 44100 as declared at include/broadcaster.hpp:80 |
| `Registry.Broadcaster.UnpublishAudio` | src/broadcaster.cpp:125-136 | no-op for an absent path; otherwise clears only that room's pusher |
| `Registry.Broadcaster.PublishText` | src/broadcaster.cpp:138-146 | creates the room with default metadata when absent (nothing changes if that fails), then sets the text provider; nothing else changes |
| `Registry.Broadcaster.UnpublishText` | src/broadcaster.cpp:148-159 | no-op for an absent path; otherwise clears only that room's text provider |
| `Registry.Broadcaster.GetRooms` | src/broadcaster.cpp:202-210 | one entry per room, in ascending path order, each carrying that room's metadata and whether each provider is set |
| `Registry.Broadcaster.GetConnectedClients` | src/broadcaster.cpp:212-246 | the loop over the listing computes exactly the relay-status check followed by the first-match filter |
| `Registry.Broadcaster.KickClient` | src/broadcaster.cpp:161-200 | the nested loop over rooms and clients computes exactly the kick scan over the rooms in key order |
| `Registry.Broadcaster.TextHandler` | src/broadcaster.cpp:78-91 | 404 "Room does not exist" iff the room is absent; otherwise the provider's current text, or "" without a provider |
| `Registry.Broadcaster.SetDeleteRoomsInDestructor` | src/broadcaster.cpp:335-339 | afterwards the getter returns the given flag; the result is the registry itself |
| `Registry.Broadcaster.GetDeleteRoomsInDestructor` | src/broadcaster.cpp:341-344 | returns the delete-rooms-in-destructor flag |
| `RtspPusher.Scale` | src/rtsp_pusher.cpp:148-151 | the result is floor(x·10⁹ / rate) |
| `RtspPusher.ScaleMonotonic` | src/rtsp_pusher.cpp:148-149 | more samples never give an earlier time |
| `RtspPusher.ScaleOfSum` | src/rtsp_pusher.cpp:146-151 | scaling a sum loses at most one nanosecond compared with the sum of the scaled parts |
| `RtspPusher.TimestampsNondecreasing` | src/rtsp_pusher.cpp:146-149 | with non-negative counts, successive buffer timestamps never decrease |
| `RtspPusher.TimestampStep` | src/rtsp_pusher.cpp:146-151 | each timestamp is the previous one plus the buffer's own duration, within one nanosecond |
| `RtspPusher.FeedState.constructor` | src/rtsp_pusher.cpp:3-10 | a new session has no pending task and a sample counter at 0 |
| `RtspPusher.FeedState.AtMostOnePendingTask` | src/rtsp_pusher.cpp:166-181 | at most one push task is pending, and a pending task is the one `sourceid` names |
| `RtspPusher.FeedState.StartFeed` | src/rtsp_pusher.cpp:166-172 | schedules the push task only when `sourceid` is 0; a repeated need-data leaves the id and the pending tasks unchanged |
| `RtspPusher.FeedState.StopFeed` | src/rtsp_pusher.cpp:174-181 | removes the pending task (if any) and resets `sourceid` to 0 |
| `RtspPusher.FeedState.PushData` | src/rtsp_pusher.cpp:136-164 | calls the provider with a buffer of `chunk_size` bytes, `chunk_size` and the rate; adds exactly the returned count to `num_samples`; timestamps with the updated counter and sets the duration from the count; keeps the push task iff the flow is OK, without resetting `sourceid` |

## Left out

- HTTP server lifecycle: `start_http_server`, `stop_http_server`, the listener thread and the `/v1/rooms` listing handler. These are I/O and threading. Only the `/text` handler's decision is modelled, and its path routing (the `\w+` pattern) is not.
- The real HTTP requests and JSON handling of httplib and nlohmann, including `to_json` and request bodies (`sourceOnDemand`, `maxReaders`). Replies are inputs. Each list or kick request in `kick_client` gets its reply from a function of the path or the endpoint.
- Relay.CheckOk: error texts are not modelled. The model keeps a failure kind and the status, not the relay's `error` string. A status-error body that fails to parse or is not a JSON object throws a different exception in the code; the model still reports it as a status error.
- Non-array `items` or `readers` values: nlohmann would iterate over them; the model treats them as missing.
- All GStreamer plumbing: element creation and linking, caps, bus and `error_cb`, state changes, pad release, and the main-loop thread. These are foreign calls and concurrency. Whether a new pipeline builds and starts is an input (`PipelineStatus`), and the pushed buffer's flow result is an input (`FlowReturn`).
- The `RtspPusher` move constructor and move assignment, and what replacing or clearing a pusher releases: these are ownership of native handles. A pusher is a value recording its construction arguments. The scheduler state of a room's pusher is the separate `FeedState` class. Moving a new pusher over a running one (src/broadcaster.cpp:121, src/rtsp_pusher.cpp:83-88) frees the old pipeline data while its main loop still runs, and releasing the old asynchronous future then waits for a main loop that nothing quits; the model treats the replacement as completing.
- The `~Broadcaster` best-effort cleanup and `api_client.stop()`: I/O and logging.
- `get_server_ip` / `get_server_port` and the fields they read: they belong to the HTTP server lifecycle.
- Locking and thread safety of the rooms map: the code has none, and the model is sequential.
- RtspPusher.FeedState.PushData: provider counts are non-negative (`nat`), as the provider's documented contract ("the number of samples written") says. A negative `int` would wrap the unsigned counter; that case is not modelled.
- RtspPusher.Scale: 64-bit width is not modelled. The counter and the scaled values are unbounded integers; `gst_util_uint64_scale` avoids intermediate overflow. The sample rate must be positive.
- RtspPusher.FeedState.constructor: `chunk_size` is taken as non-negative, because a negative `int` would be converted to a huge allocation size.
- String ordering compares characters by code point. This agrees with `std::string` byte order for paths made of ASCII characters.
