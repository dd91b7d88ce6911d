# RiderIN real-time core, modelled in Dafny

This project models the three small sequential cores of the RiderIN ride-hailing
repository and proves properties of them:

- **The driver-location relay** (`socket/server.js`). A registry `drivers` maps
  each driver id to its last reported position and timestamp. `locationUpdate`
  frames upsert into it, and `requestRide` frames get the drivers within
  `MAX_DISTANCE` (default 5000 m), nearest first. `ping` gets a `pong`.
  `/health` and `/drivers` report the registry's size. Files: `nearby.dfy`
  (module `Nearby`: the filter-map-sort chain of `findNearbyDrivers` and its
  specification) and `relay.dfy` (module `Relay`: the class `RelayServer`
  holding the registry, the message dispatch and the reports).
- **The driver app's offline action queue** (`driver/utils/offlineQueue.ts`),
  in `offline_queue.dfy` (module `OfflineQueue`). Actions are appended. One
  processing pass executes each action. A failure is re-queued with
  `retryCount + 1` while `retryCount < 3` and dropped otherwise. Clearing
  removes the stored queue.
- **The driver app's location throttle** (`driver/hooks/useLocationTracking.tsx`),
  in `location_tracking.dfy` (module `LocationTracking`). `shouldUpdateLocation`
  is a gate over `lastUpdateTime`. The watch callback forwards accepted fixes to
  the driver context while the driver is online.

`wrappers.dfy` holds the `Option` type.

Modelling choices:
- The geodesic distance is a function-typed parameter. `geolib.getDistance` is
  `Nearby.Metric`, giving whole metres. The haversine `calculateDistance` is
  `LocationTracking.Haversine`, giving non-negative reals. Nothing else is
  assumed about either.
- `Object.entries(drivers)` has an engine-defined order. `Nearby.Entries`
  produces the registry's entries in an unspecified order, and
  `Nearby.IsEntries` says what it guarantees. A reply is specified by
  `Nearby.IsNearbyResult`: it is sorted by distance, and its multiset equals the
  set of in-range entries, each annotated with its distance. Tie order is not
  specified.
- Clocks (`Date.now()`), the generated action id, the network check, the
  outcome of each `api.post` and the number of open WebSocket clients are all
  parameters.
- An inbound frame is a `Relay.Inbound` value. A frame that fails
  `JSON.parse` is `Malformed`. A `locationUpdate` whose `data` object is missing
  has `data == None`. The source then throws a `TypeError` inside the `try`
  before the assignment, so the frame changes nothing.
- The registry is modelled as the own enumerable properties of the plain object
  `drivers`, which are what `Object.entries`, `Object.keys` and the `/drivers`
  JSON see. Assigning to `drivers["__proto__"]` runs the inherited setter. It
  replaces the object's prototype and adds no own key, so in the model an
  update for that id leaves the registry unchanged.
- Queue storage is `OfflineQueue.OfflineQueue.stored`. It is `None` when
  AsyncStorage holds no value under the key, and `getQueue` then reads `[]`.
- The callback's comparison location is an explicit `captured` parameter. The
  effect at `useLocationTracking.tsx:105-176` does not list `location` among its
  dependencies. The callback therefore compares against the `location` captured
  when the effect ran, usually `null` right after tracking starts. With `None`,
  `Gate` accepts every fix.

## Model

| member | source | states |
|---|---|---|
| `Nearby.Entries` | socket/server.js:88 | the entries list each registry key exactly once, with its current value |
| `Nearby.WithinRange` | socket/server.js:89-95 | the filter keeps exactly the entries whose distance is `<= MAX_DISTANCE` (inclusive), and no others |
| `Nearby.AnnotateAllFields` | socket/server.js:96-103 | the `.map` step keeps each entry's id, coordinates and timestamp and adds its distance from the query point, element by element |
| `Nearby.Insert` | socket/server.js:104 | insertion into a distance-sorted list keeps it sorted and adds exactly that element |
| `Nearby.SortByDistance` | socket/server.js:104 | the sort returns a permutation of its input that is non-decreasing in `distance` |
| `Nearby.FindNearby` | socket/server.js:87-105 | the `findNearbyDrivers` chain returns a list sorted by distance, no longer than the registry, with every element within the bound, and containing every in-range entry annotated with its distance |
| `Nearby.CandidateCount` | socket/server.js:88-103 | with distinct ids, each in-range entry yields exactly one annotated candidate |
| `Nearby.FindNearbyCorrect` | socket/server.js:87-105 | `findNearbyDrivers` over the registry's entries is sorted and a permutation of the in-range entries of the map |
| `Nearby.NearbySound` | socket/server.js:89-103 | every reply element has `distance <= MAX_DISTANCE`, and its id, coordinates and timestamp are copied from the map with the distance recomputed from them |
| `Nearby.NearbyComplete` | socket/server.js:88-103 | every map entry within the bound appears in the reply |
| `Nearby.NearbyOnce` | socket/server.js:88-104 | no driver id appears twice in a reply |
| `Nearby.NearbyCount` | socket/server.js:69-74 | the reply length (`count`) is the number of registry keys whose distance is within the bound; an empty registry gives an empty reply |
| `Relay.ApplyLocationUpdate` | socket/server.js:55-64 | a `"driver"` update stores exactly the new latitude, longitude and timestamp, overwriting; other drivers are untouched; any other role, a missing `data` object or the id `"__proto__"` changes nothing (so `"__proto__"` is never a key); the registry grows by one only for a new id |
| `Relay.LastWriteWins` | socket/server.js:57-61 | two updates for one driver leave only the second; no history is kept |
| `Relay.RelayServer.constructor` | socket/server.js:9-12 | the registry starts empty, and the bound is MAX_DISTANCE or 5000 when unset |
| `Relay.RelayServer.HandleLocationUpdate` | socket/server.js:55-64 | the new registry is `ApplyLocationUpdate` of the old one |
| `Relay.RelayServer.HandleRideRequest` | socket/server.js:66-77 | a `"user"` request gets exactly one `nearbyDrivers` reply that is a correct result with `count` its length; any other role gets none |
| `Relay.RelayServer.HandleMessage` | socket/server.js:21-43 | dispatch on `type`: `locationUpdate` upserts without reply; `requestRide` replies at most once and leaves the registry unchanged; `ping` replies exactly one `pong`; unknown types and unparseable frames reply nothing and change nothing; no message removes an entry |
| `Relay.RelayServer.HandleClose` | socket/server.js:45-47 | closing a connection leaves the registry unchanged (no eviction) |
| `Relay.RelayServer.HealthReport` | socket/server.js:108-115 | `activeDrivers` is the number of keys in the registry |
| `Relay.RelayServer.DriversListing` | socket/server.js:117-122 | `drivers` is the number of keys of the `locations` it returns, which are the registry |
| `OfflineQueue.Execute` | driver/utils/offlineQueue.ts:129-146 | an action of unrecognized type always completes (the `default` branch only warns); a known type completes iff its request succeeds |
| `OfflineQueue.Survivors` | driver/utils/offlineQueue.ts:96-114 | the `remainingActions` of one pass are never more than the queue held |
| `OfflineQueue.SurvivorsInOrder` | driver/utils/offlineQueue.ts:96-114 | the remaining actions are exactly the failed actions with `retryCount < 3`, in their original relative order, each with `retryCount` raised by exactly 1 and other fields unchanged |
| `OfflineQueue.SurvivorsBounds` | driver/utils/offlineQueue.ts:98-146 | no succeeded action remains (including unknown types, which never throw); every remaining `retryCount` is between 1 and 3; the queue never grows |
| `OfflineQueue.AllSucceededEmpties` | driver/utils/offlineQueue.ts:98-101 | a pass in which every action succeeds leaves an empty queue |
| `OfflineQueue.OfflineQueue.constructor` | driver/utils/offlineQueue.ts:64-67 | nothing is stored initially |
| `OfflineQueue.OfflineQueue.GetQueue` | driver/utils/offlineQueue.ts:64-72 | with nothing stored the queue reads `[]`; otherwise it reads back the stored actions |
| `OfflineQueue.OfflineQueue.AddToQueue` | driver/utils/offlineQueue.ts:33-59 | exactly one action with `retryCount == 0` is appended at the end; earlier actions are unchanged |
| `OfflineQueue.OfflineQueue.ProcessQueue` | driver/utils/offlineQueue.ts:77-123 | offline or with an empty queue, nothing changes; otherwise the stored queue becomes the survivors of one pass, and the reported count is `queue.length - remainingActions.length` |
| `OfflineQueue.OfflineQueue.ClearQueue` | driver/utils/offlineQueue.ts:151-158 | the stored key is removed, so `getQueue` returns `[]` |
| `LocationTracking.Gate` | driver/hooks/useLocationTracking.tsx:57-81 | with no previous location, or when `now - lastUpdateTime > timeInterval` (strict), the fix is accepted; otherwise it is accepted iff `distance > distanceInterval` (strict); acceptance sets `lastUpdateTime = now`, and rejection leaves it unchanged |
| `LocationTracking.LocationTracker.constructor` | driver/hooks/useLocationTracking.tsx:25-37 | default thresholds are 50 m and 5000 ms; `lastUpdateTime` starts at 0 and the location at `null` |
| `LocationTracking.LocationTracker.ShouldUpdateLocation` | driver/hooks/useLocationTracking.tsx:57-81 | the answer and the new `lastUpdateTime` are those of `Gate` |
| `LocationTracking.LocationTracker.InitialFix` | driver/hooks/useLocationTracking.tsx:112-133 | the first fix becomes the location and is reported; it is sent to the driver context iff online |
| `LocationTracking.LocationTracker.OnWatchedFix` | driver/hooks/useLocationTracking.tsx:142-160 | an accepted fix becomes exactly the new location and is reported, and `updateDriverLocation` is called iff online; a rejected fix changes and emits nothing |

## Left out

- WebSocket and Express transport (`WebSocketServer`, `app.listen`, `ws.send` framing) and all logging. Replies are returned as values.
- JSON parsing and encoding. Inbound frames are a datatype with a `Malformed` variant. A frame that parses to `null`, which makes `data.type` throw, behaves like `Malformed` and is not a separate case. Numeric fields are assumed present: a missing `latitude` would be stored as `undefined`, and that is not represented.
- Relay.ApplyLocationUpdate: the prototype replacement caused by an update for the id `"__proto__"` is not represented. None of the relay's reads (`Object.entries`, `Object.keys`, `JSON.stringify`) can observe it, and later assignments to other ids still create own keys.
- A missing `driver` field, which JavaScript turns into the key `"undefined"`. The model takes the id as a string.
- Floating-point geodesy: `geolib.getDistance` and `calculateDistance` (`useLocationTracking.tsx:41-54`). Both are abstract parameters.
- Tie order among equal distances. It depends on `Object.entries` order and sort stability, so only sortedness and permutation are stated.
- Concurrency. The relay runs on one event loop, so each handler is modelled as one sequential step. `processQueue` awaits between reading and rewriting storage. An `addToQueue` completing in that window would be overwritten by line 117. That interleaving is not modelled.
- `MAX_DISTANCE` coercion from an environment string. It is a `nat`, with 5000 when unset.
- The HTTP and WebSocket ports, and the ISO timestamp of `/health`, which is a parameter.
- `activeConnections`, which is `wss.clients.size`. It is a parameter.
- AsyncStorage, NetInfo and axios failures. A storage error caught by `addToQueue`, `getQueue`, `processQueue` or `clearQueue` is not modelled. The network check is a flag, and each action's request outcome is an oracle.
- `setupNetworkListeners` (subscription plumbing).
- The React machinery of `useLocationTracking`: `useState`, `useEffect` and its cleanup, `startTracking` and `stopTracking` with the permission request, and the `onLocationUpdate` callback. The callback appears only as the `notified` output.
- `LocationTracking.LocationTracker.InitialFix`: the `highAccuracy` option is omitted. Both branches at `useLocationTracking.tsx:129-133` make the same call, so it changes nothing observable.
- The OTP flow (`server/controllers/otp.controller.ts`, `server/utils/otp.ts`, `server/utils/redis.ts`), and the UI, configuration, type and test files. These are not part of this model.
