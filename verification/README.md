# Network state-sync bookkeeping of the multiplayer 3D world client

This project models the client-side bookkeeping that keeps a multiplayer 3D
world in step with its room server, and proves properties of that model. The
modelled parts are:

- the remote-player registry, a copy-on-write JavaScript `Map`;
- the inbound handlers that feed the registry from room events. There are
  four iterations of them: the library listeners, the `ColyseusManager`
  component, and the `useMultiplayer` and `useRemotePlayersSync` hooks;
- the outbound send decisions: an epsilon gate, exact-change gates, the
  field-presence payload builder and the unconditional per-frame send;
- three independent connection state machines (the multiplayer, room and
  connection stores);
- the local-player store, the world grid cell and the per-frame smoothing
  buffers;
- the animation switch of a remote avatar.

Each source file is one Dafny module.

- Zustand stores become classes with the same fields. Each setter is a
  method whose `ensures` gives the whole new state. Where lemmas need it,
  the new state is stated through a pure "state after" function (for
  example `RoomStore.AfterSetError` or `RemotePlayersStore.Added`), and the
  properties are proved about that function.
- React refs become class fields and effects become methods.
- Room events become handler methods that take the event's arguments.
- A JavaScript `Map` is its entries in insertion order (`JsMap`). The
  registry's `Map` object is a class holding them
  (`RemotePlayersStore.PlayersMap`), so installing a new map and changing a
  map in place are told apart.
- Vectors hold exact reals.

Some callers use store members that the stores shown here do not define.

- The remote store's `setPlayer`, `clear` and `addOrUpdatePlayer` do not
  exist. Neither do its `updatePlayerAnimation` or a four-argument
  `updatePlayerPosition`/`updatePlayerRotation`. Its `addPlayer(id, data)`
  takes a data object, but useMultiplayer.ts calls it as an
  `addPlayer(id, name)` with a name string; the store's body would fail on
  `data.position.clone()` for that call.
- The local store's `id`, `setId` and `pendingTeleport` do not exist either.

Such calls go to `StorePorts`: an upsert/remove/clear port that records what
it was asked to do. Each caller has its own payload type.

Asynchronous operations are split at their `await`. The part before it is
one method and the continuation is another (`MultiplayerStore.Store.Connect`
and `ConnectSettled`; `ColyseusLib.JoinOrCreateRoom` and `JoinSettled`;
`RoomStore.Store.Disconnect` and `LeaveSettled`; `ColyseusLib.LeaveRoom`
and `LeaveRoomSettled`). The
transport is a source of outcomes: a join either yields a room handle or
rejects with an `Error` or some other value. Sends are returned as values
rather than performed. `Date.now()` is a parameter (`now`).

Where the code and the design description disagree, the model follows the
code:

- No outbound path is throttled. `MOVEMENT_UPDATE_THROTTLE` is declared but
  nothing reads it. `useCharacterController` sends on every frame, and
  `useMultiplayer` uses exact inequality rather than an epsilon.
- The room store's `setError` tests its argument for truthiness. An empty
  message is therefore recorded without moving the state to `error`. As a
  result, a join rejected with an empty-message `Error` leaves the room store
  `connecting` (`ColyseusLib.EmptyJoinErrorStaysConnecting`).
- The iterations disagree with each other:
  - only some of them filter this client's own key;
  - the library listeners read `x`/`y`/`z` and `rotationX`/`Y`/`Z` fields
    that the `Player` schema does not have;
  - the library sends string-named messages (`updatePlayer`,
    `updatePosition`) while the schema's message enum is numeric.

  Each iteration is modelled as written.

## Model

| member | source | states |
|---|---|---|
| ColyseusTypes.MessageCode | src/utils/colyseus.ts:15-18 | CHANGE_PROFILE is 0 and MOVE is 1, each in both directions |
| JsMap.Get | src/stores/remotePlayersStore.ts:60 | `get` finds a value exactly when the key is present, and the value found is stored under that key |
| JsMap.Values | src/stores/remotePlayersStore.ts:113-115 | `values()` has one value per entry, in entry order |
| JsMap.GetSet | src/stores/remotePlayersStore.ts:39 | after `set(k, v)`, `k` reads `v` and every other key reads as before |
| JsMap.SetKeys | src/stores/remotePlayersStore.ts:39 | `set` on a present key keeps the key order; on a new key it appends the key |
| JsMap.SetDistinct | src/stores/remotePlayersStore.ts:38-46 | `set` keeps keys distinct |
| JsMap.GetDelete | src/stores/remotePlayersStore.ts:53 | after `delete(k)`, `k` is absent and every other key reads as before |
| JsMap.DeleteAbsent | src/stores/remotePlayersStore.ts:50-56 | deleting an absent key changes nothing |
| JsMap.DeleteDistinct | src/stores/remotePlayersStore.ts:50-56 | `delete` keeps keys distinct |
| JsMap.DeleteKeys | src/stores/remotePlayersStore.ts:53 | `delete(k)` drops `k` from the key order and keeps the other keys in their order |
| RemotePlayersStore.NewEntry | src/stores/remotePlayersStore.ts:39-45 | the stored entry's id is the key and `lastUpdate` is now; every other field comes from the data |
| RemotePlayersStore.Merge | src/stores/remotePlayersStore.ts:63-70 | supplied fields overwrite and absent fields keep their old values; id is kept and `lastUpdate` is refreshed |
| RemotePlayersStore.SetEntry | src/stores/remotePlayersStore.ts:38-46 | storing an entry under a key changes only that key and keeps the registry invariant |
| RemotePlayersStore.EntryIdIsKey | src/stores/remotePlayersStore.ts:4-12 | in a valid registry every entry's id equals its key |
| RemotePlayersStore.Added | src/stores/remotePlayersStore.ts:36-48 | `addPlayer` maps the id to a whole new entry (replacing, not merging); a present id keeps its place in the key order and a new id goes last; other keys are unchanged and the invariant is kept |
| RemotePlayersStore.Removed | src/stores/remotePlayersStore.ts:50-56 | `removePlayer` leaves the id absent and the other keys unchanged and in their order; on an absent id it changes nothing |
| RemotePlayersStore.DeleteEntry | src/stores/remotePlayersStore.ts:52-54 | deleting a key changes only that key and keeps the invariant |
| RemotePlayersStore.Updated | src/stores/remotePlayersStore.ts:58-73 | `updatePlayer` does nothing on an absent id; on a present id it merges the patch, keeps the key order and other keys, and keeps the invariant |
| RemotePlayersStore.PositionUpdated | src/stores/remotePlayersStore.ts:75-88 | only that entry's position and `lastUpdate` change and the key order is kept; an absent id is a no-op |
| RemotePlayersStore.RotationUpdated | src/stores/remotePlayersStore.ts:90-103 | only that entry's rotation and `lastUpdate` change and the key order is kept; an absent id is a no-op |
| RemotePlayersStore.AddThenRemove | src/stores/remotePlayersStore.ts:36-56 | adding a new id and then removing it restores every key's previous reading, and an empty registry stays empty |
| RemotePlayersStore.AnimationOnlyUpdateKeepsRest | src/stores/remotePlayersStore.ts:63-70 | a patch carrying only the animation keeps position, rotation, name and `isMoving` |
| RemotePlayersStore.PlayersMap.Empty | src/stores/remotePlayersStore.ts:106 | `new Map()` has no entries |
| RemotePlayersStore.PlayersMap.Copy | src/stores/remotePlayersStore.ts:38 | `new Map(other)` holds exactly the other map's entries |
| RemotePlayersStore.PlayersMap.Set | src/stores/remotePlayersStore.ts:39 | `set` changes this map's entries to `JsMap.Set` of the old ones |
| RemotePlayersStore.PlayersMap.Delete | src/stores/remotePlayersStore.ts:53 | `delete` changes this map's entries to `JsMap.Delete` of the old ones |
| RemotePlayersStore.Store.constructor | src/stores/remotePlayersStore.ts:33 | the registry starts empty |
| RemotePlayersStore.Store.AddPlayer | src/stores/remotePlayersStore.ts:36-48 | a freshly allocated map holding `Added` of the old entries is installed, the old map object keeps its entries, and the invariant holds |
| RemotePlayersStore.Store.RemovePlayer | src/stores/remotePlayersStore.ts:50-56 | a freshly allocated map holding `Removed` of the old entries is installed, and the old map object keeps its entries |
| RemotePlayersStore.Store.UpdatePlayer | src/stores/remotePlayersStore.ts:58-73 | the entries become `Updated` of the old ones; on an absent id the same map object stays, on a present id a fresh one is installed; the old map object keeps its entries |
| RemotePlayersStore.Store.UpdatePlayerPosition | src/stores/remotePlayersStore.ts:75-88 | the entries become `PositionUpdated` of the old ones; the same map object stays on an absent id and a fresh one is installed otherwise |
| RemotePlayersStore.Store.UpdatePlayerRotation | src/stores/remotePlayersStore.ts:90-103 | the entries become `RotationUpdated` of the old ones; the same map object stays on an absent id and a fresh one is installed otherwise |
| RemotePlayersStore.Store.ClearAll | src/stores/remotePlayersStore.ts:105-107 | a fresh empty map is installed, the old one keeps its entries, and `getAllPlayers` returns nothing |
| RemotePlayersStore.Store.GetPlayer | src/stores/remotePlayersStore.ts:109-111 | returns an entry exactly when the id is present; that entry is the one stored under the id, and its `id` is the id |
| RemotePlayersStore.Store.GetAllPlayers | src/stores/remotePlayersStore.ts:113-115 | returns the entries' values, one per entry, in insertion order |
| RemotePlayersStore.SnapshotIsIsolated | src/stores/remotePlayersStore.ts:37-47 | copy-on-write: a map read before `addPlayer` is a different object from the one installed and still holds exactly its old entries; only the new map has the added player |
| RoomStore.AfterSetRoom | src/stores/roomStore.ts:48-55 | connected iff a room is given, with state `connected` iff a room is given (else `disconnected` with a null room id) |
| RoomStore.AfterSetConnectionState | src/stores/roomStore.ts:61-66 | `isConnected` holds exactly when the new state is `connected` |
| RoomStore.AfterSetError | src/stores/roomStore.ts:68-73 | the error is recorded; a truthy error moves the state to `error`, and a null or empty one leaves the state alone; `isConnected` never changes |
| RoomStore.AfterDisconnect | src/stores/roomStore.ts:75-90 | ends with no room, not connected, `disconnected` and no room id; client and error are kept |
| RoomStore.DisconnectIsIdempotent | src/stores/roomStore.ts:84-89 | disconnecting an already disconnected store changes nothing |
| RoomStore.SetErrorCanDesync | src/stores/roomStore.ts:68-73 | after an error, a connected store keeps `isConnected` while its state is `error` |
| RoomStore.Store.constructor | src/stores/roomStore.ts:30-37 | the store starts in the initial state |
| RoomStore.Store.SetClient | src/stores/roomStore.ts:44-46 | only the client changes |
| RoomStore.Store.SetRoom | src/stores/roomStore.ts:48-55 | the new state is `AfterSetRoom` of the old one |
| RoomStore.Store.SetRoomId | src/stores/roomStore.ts:57-59 | only the room id changes |
| RoomStore.Store.SetConnectionState | src/stores/roomStore.ts:61-66 | the new state is `AfterSetConnectionState` of the old one |
| RoomStore.Store.SetError | src/stores/roomStore.ts:68-73 | the new state is `AfterSetError` of the old one |
| RoomStore.Store.Disconnect | src/stores/roomStore.ts:75-83 | the room to leave is returned; with no room the state becomes `AfterDisconnect` at once, with a room nothing changes before the awaited `leave()` settles |
| RoomStore.Store.LeaveSettled | src/stores/roomStore.ts:79-89 | once `leave()` resolves or rejects, the state as it is then becomes `AfterDisconnect` of it |
| RoomStore.JoinDuringLeaveIsOverwritten | src/stores/roomStore.ts:75-89 | a `setRoom` made while the leave is pending is overwritten: the store ends with no room and disconnected |
| RoomStore.Store.Reset | src/stores/roomStore.ts:92-94 | restores the initial state |
| ConnectionStore.Store.constructor | src/stores/connectionStore.ts:25-28 | starts `idle` with no error |
| ConnectionStore.Store.SetConnecting | src/stores/connectionStore.ts:32 | `connecting` with the error cleared, from any status |
| ConnectionStore.Store.SetConnected | src/stores/connectionStore.ts:33 | `connected` with the error cleared, from any status |
| ConnectionStore.Store.SetFailed | src/stores/connectionStore.ts:34 | `failed` with the given error, from any status |
| ConnectionStore.Store.SetDisconnected | src/stores/connectionStore.ts:35 | only the status changes; the error survives |
| ConnectionStore.Store.Reset | src/stores/connectionStore.ts:36 | restores the initial state from any state |
| ConnectionStore.FailedThenDisconnectedKeepsError | src/stores/connectionStore.ts:34-35 | a failure message survives a later `setDisconnected` |
| MultiplayerStore.FailureMessage | src/stores/multiplayerStore.ts:97-100 | an `Error`'s message, otherwise "Connection failed" |
| MultiplayerStore.Store.constructor | src/stores/multiplayerStore.ts:26-35 | no client, no room, `disconnected`, no error, the default server URL |
| MultiplayerStore.Store.SetServerUrl | src/stores/multiplayerStore.ts:40-42 | only the server URL changes |
| MultiplayerStore.Store.Connect | src/stores/multiplayerStore.ts:44-61 | while connected or connecting, nothing changes and no join starts; otherwise the state is `connecting` with no error, and the join uses the existing client, or a new one for the server URL, on room "my_room" with the username |
| MultiplayerStore.Store.ConnectSettled | src/stores/multiplayerStore.ts:89-101 | success stores the client and room, `connected`, no error; failure gives `error` with the message, stores neither client nor room, and throws nothing |
| MultiplayerStore.Store.Disconnect | src/stores/multiplayerStore.ts:104-116 | `leave` is requested iff there was a room; always ends with no room, `disconnected` and no error |
| MultiplayerStore.Store.OnRoomError | src/stores/multiplayerStore.ts:78-81 | `error`, with the listener's message (possibly none) |
| MultiplayerStore.Store.OnRoomLeave | src/stores/multiplayerStore.ts:84-87 | `disconnected` with no room; the error is kept |
| MultiplayerStore.Store.SendPosition | src/stores/multiplayerStore.ts:118-126 | sends "position" with x/y/z iff there is a room |
| MultiplayerStore.Store.SendRotation | src/stores/multiplayerStore.ts:128-136 | sends "rotation" with x/y/z iff there is a room |
| MultiplayerStore.Store.SendAnimation | src/stores/multiplayerStore.ts:138-146 | sends "animation" iff there is a room |
| MultiplayerStore.ConnectTwiceJoinsOnce | src/stores/multiplayerStore.ts:47-53 | a second `connect` before the first settles starts no second join |
| MultiplayerStore.DisconnectTwice | src/stores/multiplayerStore.ts:104-116 | `disconnect` is idempotent: the second call requests no leave and the state is the same |
| LocalPlayerStore.CreateMoveData | src/stores/localPlayerStore.ts:30-40 | position and animation copied; rotation x and y copied with z forced to 0 |
| LocalPlayerStore.ActiveAnimationName | src/stores/localPlayerStore.ts:127-131 | the first entry, in order, that is running with positive effective weight (a missing weight counts as 0); none iff no entry qualifies |
| LocalPlayerStore.AnimationAfterSetAction | src/stores/localPlayerStore.ts:126-134 | the active action's name; "idle" for undefined actions or when none qualifies |
| LocalPlayerStore.Store.constructor | src/stores/localPlayerStore.ts:77-87 | starts with session id "", name "Player", origin pose and "idle" |
| LocalPlayerStore.Store.SetSessionId | src/stores/localPlayerStore.ts:89-91 | only the session id changes |
| LocalPlayerStore.Store.SetUsername | src/stores/localPlayerStore.ts:93-95 | only the name changes |
| LocalPlayerStore.Store.SetPosition | src/stores/localPlayerStore.ts:98-104 | only the position changes, to the rounded copy |
| LocalPlayerStore.Store.SetRotation | src/stores/localPlayerStore.ts:106-120 | only the rotation changes, to the normalised copy |
| LocalPlayerStore.Store.SetAnimation | src/stores/localPlayerStore.ts:122-124 | only the animation changes |
| LocalPlayerStore.Store.SetAction | src/stores/localPlayerStore.ts:126-134 | only the animation changes, to `AnimationAfterSetAction` |
| LocalPlayerStore.Store.SendMovement | src/stores/localPlayerStore.ts:136-143 | sends MOVE (code 1) with the move data built from the current state, and changes nothing |
| LocalPlayerStore.Store.Reset | src/stores/localPlayerStore.ts:145-147 | restores exactly the initial state |
| WorldStore.CellIndex | src/stores/worldStore.ts:5-6 | the cell index k of a coordinate satisfies 20k − 10 ≤ c < 20k + 10 |
| WorldStore.CalculateGridCell | src/stores/worldStore.ts:30-33 | the computed cell contains the position: 20·x − 10 ≤ p.x < 20·x + 10 and 20·y − 10 ≤ p.z < 20·y + 10 |
| WorldStore.CellIndexUnique | src/stores/worldStore.ts:30-33 | the converse: a coordinate in [20k − 10, 20k + 10) maps to k |
| WorldStore.CellIndexShift | src/stores/worldStore.ts:30-33 | moving one cell width moves one cell over |
| WorldStore.IsGridCellEqualIsEquality | src/stores/worldStore.ts:35-38 | `isGridCellEqual` holds exactly when the two cells are the same value |
| WorldStore.CellAfterUpdate | src/stores/worldStore.ts:50-62 | after an update the current cell is the computed one, and it is left as it was when the cells are equal |
| WorldStore.UpdateIsIdempotent | src/stores/worldStore.ts:50-62 | a second update with the same position changes nothing |
| WorldStore.Store.constructor | src/stores/worldStore.ts:26-27 | starts in cell (0, 0) with a 3×3 visible grid |
| WorldStore.Store.UpdateCurrentGridCell | src/stores/worldStore.ts:50-62 | the current cell becomes the computed one, subscribers are notified iff it changed, and the visible grid size is untouched |
| SnapshotBuffer.LerpFacts | src/hooks/useSnapshotBuffer.ts:30 | one lerp step leaves (1 − factor) of the gap and, with a factor in [0, 1], lands between its two ends |
| SnapshotBuffer.LerpScalar | src/hooks/useSnapshotBuffer.ts:30 | the remaining gap is (1 − factor) times the old one; with a factor in [0, 1] the result lies between the value and the target |
| SnapshotBuffer.Lerp | src/hooks/useSnapshotBuffer.ts:30 | on each axis the gap left is (1 − factor) times the old one, and with a factor in [0, 1] each component lies between the two ends |
| SnapshotBuffer.ApproachGap | src/hooks/useSnapshotBuffer.ts:24-31 | after n frames toward a fixed target the gap is (1 − factor)^n times the first gap |
| SnapshotBuffer.ApproachNeverOvershoots | src/hooks/useSnapshotBuffer.ts:30 | with a factor in [0, 1] the value stays between its start and the target on every frame count |
| SnapshotBuffer.FrameShrinksGap | src/hooks/useSnapshotBuffer.ts:30 | with a factor in (0, 1] each frame strictly shrinks a nonzero gap |
| SnapshotBuffer.PositionBuffer.constructor | src/hooks/useSnapshotBuffer.ts:14-22 | `current` starts as a copy of the target, uninitialised, with default factor 0.2 |
| SnapshotBuffer.PositionBuffer.SetTarget | src/hooks/useSnapshotBuffer.ts:19-20 | a re-render replaces the target only |
| SnapshotBuffer.PositionBuffer.Frame | src/hooks/useSnapshotBuffer.ts:24-31 | the first frame snaps to the target and sets `initialized`; later frames lerp by the factor; `initialized` is never reset |
| SnapshotBuffer.RunPositionFrames | src/hooks/useSnapshotBuffer.ts:24-31 | n frames toward a fixed target end, per axis, where `Approach` says |
| SnapshotBuffer.OffsetEuler | src/hooks/useSnapshotBuffer.ts:51-55 | the converted angles are the target's, with y turned by the offset |
| SnapshotBuffer.RotationBuffer.constructor | src/hooks/useSnapshotBuffer.ts:36-48 | starts at the identity quaternion, uninitialised, with factor 0.2 and y offset π by default |
| SnapshotBuffer.RotationBuffer.SetTarget | src/hooks/useSnapshotBuffer.ts:45-46 | a re-render replaces the target only |
| SnapshotBuffer.RotationBuffer.Frame | src/hooks/useSnapshotBuffer.ts:50-65 | the first frame copies the offset target orientation without interpolating; later frames slerp by the factor |
| RemoteCharacterAnimation.AnimationSwitch | src/hooks/useRemoteCharacterAnimation.ts:22-31 | nothing happens without a mixer, actions or a loaded model, nor when the animation names no action or the current one; otherwise the old action fades out, the new one is reset, faded in and played, and becomes current |
| RemoteCharacterAnimation.SwitchIsIdempotent | src/hooks/useRemoteCharacterAnimation.ts:26 | repeating the same animation makes no further calls |
| RemoteCharacterAnimation.OnlyPreviousFadesOut | src/hooks/useRemoteCharacterAnimation.ts:28-29 | the only action faded out is the one that was current, with the 0.2 s fade |
| RemoteCharacterAnimation.Controller.constructor | src/hooks/useRemoteCharacterAnimation.ts:20 | no current action at first |
| RemoteCharacterAnimation.Controller.Effect | src/hooks/useRemoteCharacterAnimation.ts:22-31 | the calls made and the new current action are those of `AnimationSwitch` |
| ColyseusLib.Endpoint | src/lib/colyseus.ts:9-10 | the environment value if it is set and non-empty, else "ws://localhost:2567" |
| ColyseusLib.AddedData | src/lib/colyseus.ts:81-88 | position from x/y/z, rotation from rotationX/Y/Z, the other fields copied, `lastUpdate` now |
| ColyseusLib.ChangePatch | src/lib/colyseus.ts:99-104 | supplies pose, movement and animation, never the name |
| ColyseusLib.ChangeKeepsUsername | src/lib/colyseus.ts:92-105 | a change event never renames a remote player |
| ColyseusLib.NatToDecimal | src/lib/colyseus.ts:116 | the decimal rendering is a non-empty string of digits |
| ColyseusLib.DecimalRoundTrip | src/lib/colyseus.ts:116 | the rendered digits denote the code again |
| ColyseusLib.IntToDecimal | src/lib/colyseus.ts:116 | an integer renders as a non-empty string |
| ColyseusLib.RoomErrorMessage | src/lib/colyseus.ts:114-117 | "Error <code>: <message>", with an absent message rendered as "undefined" |
| ColyseusLib.RoomErrorAlwaysSetsErrorState | src/lib/colyseus.ts:114-117 | a room error always moves the room store to `error` |
| ColyseusLib.JoinErrorMessage | src/lib/colyseus.ts:58-60 | an `Error`'s message, otherwise "Unknown error" |
| ColyseusLib.EmptyJoinErrorStaysConnecting | src/lib/colyseus.ts:46-62 | a join rejected with an empty-message `Error` leaves the room store `connecting` |
| ColyseusLib.InitializeColyseusClient | src/lib/colyseus.ts:32-36 | a new client for the endpoint, stored in the room store and returned |
| ColyseusLib.JoinOrCreateRoom | src/lib/colyseus.ts:41-49 | the state is `connecting` before the join is requested |
| ColyseusLib.JoinSettled | src/lib/colyseus.ts:49-62 | success stores the room (so `connected`) and returns it; failure records the error and re-throws |
| ColyseusLib.OnPlayerAdd | src/lib/colyseus.ts:70-89 | for this client it sets the local id and name and leaves the registry alone; for any other it adds an entry built by `AddedData` |
| ColyseusLib.OnPlayerChange | src/lib/colyseus.ts:92-105 | ignored for this client; for any other it is `updatePlayer` with `ChangePatch`, a no-op for unknown ids |
| ColyseusLib.OnPlayerRemove | src/lib/colyseus.ts:108-111 | removes the key, unfiltered |
| ColyseusLib.OnRoomError | src/lib/colyseus.ts:114-117 | records `RoomErrorMessage` and the state is `error` |
| ColyseusLib.OnRoomLeave | src/lib/colyseus.ts:120-124 | `disconnected`, and the registry is empty |
| ColyseusLib.PositionMessage | src/lib/colyseus.ts:130-136 | "updatePosition" with exactly x/y/z |
| ColyseusLib.RotationMessage | src/lib/colyseus.ts:141-147 | "updateRotation" with exactly x/y/z |
| ColyseusLib.SendPlayerState | src/lib/colyseus.ts:152-184 | x/y/z iff a position is given; rotationX/Y/Z iff a rotation is given; `isMoving` iff defined (false included); `animationState` iff non-empty; no other keys |
| ColyseusLib.LeaveRoom | src/lib/colyseus.ts:189-190 | starts the room store's `disconnect()` and returns the room whose leave is pending |
| ColyseusLib.LeaveRoomSettled | src/lib/colyseus.ts:190-191 | after the awaited `disconnect()`, the registry ends empty |
| ColyseusLib.LeaveRoomInOrder | src/lib/colyseus.ts:189-192 | run in order, the room store ends in `AfterDisconnect` of its old state and the registry ends empty |
| ColyseusLib.PlayerAddedDuringLeaveIsWiped | src/lib/colyseus.ts:189-192 | a remote player added while the leave is pending is gone afterwards, and the room store ends disconnected |
| ColyseusManager.Abs | src/components/ColyseusManager.tsx:114 | `Math.abs` |
| ColyseusManager.InitialUpserts | src/components/ColyseusManager.tsx:90-94 | the initial enumeration makes only upserts, at most one per player |
| ColyseusManager.InitialUpsertsSkipSelf | src/components/ColyseusManager.tsx:90-94 | the initial enumeration never upserts this client's key |
| ColyseusManager.InitialUpsertsCoverOthers | src/components/ColyseusManager.tsx:90-94 | every other player is upserted with its own entry |
| ColyseusManager.InitialUpsertsAppend | src/components/ColyseusManager.tsx:90-94 | enumerating one more player adds its upsert, unless it is this client |
| ColyseusManager.SetIdEffect | src/components/ColyseusManager.tsx:58-62 | the local id is set iff there is a room with a non-empty session id and the local id is still empty |
| ColyseusManager.ListenEffect | src/components/ColyseusManager.tsx:65-99 | without state or room nothing happens; otherwise the upserts are exactly `InitialUpserts` |
| ColyseusManager.OnPlayerAdd | src/components/ColyseusManager.tsx:69-74 | upserts every key except this client's |
| ColyseusManager.OnPlayerChange | src/components/ColyseusManager.tsx:77-82 | upserts every key except this client's |
| ColyseusManager.OnPlayerRemove | src/components/ColyseusManager.tsx:85-87 | removes every key, unfiltered |
| ColyseusManager.Unmount | src/components/ColyseusManager.tsx:51-54 | the clean-up clears the registry |
| ColyseusManager.Manager.constructor | src/components/ColyseusManager.tsx:36-37 | last-sent position and rotation start at the origin |
| ColyseusManager.Manager.SendEffect | src/components/ColyseusManager.tsx:109-149 | sends MOVE with the full pose iff there is a room and some position axis, or the yaw, moved by more than 0.01; after a send the refs hold what was sent |
| ColyseusManager.PitchAndRollAloneNeverSend | src/components/ColyseusManager.tsx:113-121 | a send effect run with the last-sent position and a rotation that differs only in x and z sends nothing and keeps the refs |
| ColyseusManager.ThresholdIsStrict | src/components/ColyseusManager.tsx:113-121 | with a room, a send effect run with one axis moved by exactly 0.01 sends nothing and keeps the refs; a following yaw turn of 0.02 sends and is remembered |
| ColyseusManager.SendTwice | src/components/ColyseusManager.tsx:135-147 | an immediate re-run with the same pose sends nothing |
| UseMultiplayer.ChangeUpdates | src/hooks/useMultiplayer.ts:88-108 | position, rotation and animation are each forwarded exactly when present (animation when non-empty), and nothing else; at most three calls, in the order position, rotation, animation |
| UseMultiplayer.HandlePlayerAdd | src/hooks/useMultiplayer.ts:81-109 | ignores this client; otherwise adds the player under its name, or "Player" when the name is empty, and attaches a change listener iff the player offers one |
| UseMultiplayer.HandlePlayerChange | src/hooks/useMultiplayer.ts:88-108 | the calls are exactly `ChangeUpdates` |
| UseMultiplayer.HandlePlayerRemove | src/hooks/useMultiplayer.ts:112-114 | removes the key, unfiltered |
| UseMultiplayer.Cleanup | src/hooks/useMultiplayer.ts:121-123 | clears the registry |
| UseMultiplayer.Hook.constructor | src/hooks/useMultiplayer.ts:34-36 | last-sent values start at the origin and "idle" |
| UseMultiplayer.Hook.PositionEffect | src/hooks/useMultiplayer.ts:39-50 | sends iff connected with a room and the position differs exactly from the last sent; then the ref is updated |
| UseMultiplayer.Hook.RotationEffect | src/hooks/useMultiplayer.ts:53-64 | sends iff connected with a room and the rotation differs exactly from the last sent; then the ref is updated |
| UseMultiplayer.Hook.AnimationEffect | src/hooks/useMultiplayer.ts:67-74 | sends iff connected with a room and the animation differs from the last sent; then the ref is updated |
| UseMultiplayer.FreshHookStaysQuiet | src/hooks/useMultiplayer.ts:34-36 | a fresh hook never sends "idle" or an origin pose |
| UseMultiplayer.PositionSentOnce | src/hooks/useMultiplayer.ts:46-49 | re-running right after a send sends nothing |
| UseRemotePlayersSync.AddUpsert | src/hooks/useRemotePlayersSync.ts:23-38 | the upsert carries `sessionId` equal to the key, the name, the avatar, the pose and the animation |
| UseRemotePlayersSync.ChangeUpsert | src/hooks/useRemotePlayersSync.ts:47-60 | the same pose, avatar and animation, with no session id and no name |
| UseRemotePlayersSync.OnAdd | src/hooks/useRemotePlayersSync.ts:21-39 | drops an event lacking the player, its position or its rotation; otherwise upserts under the key, with no filter on this client |
| UseRemotePlayersSync.OnChange | src/hooks/useRemotePlayersSync.ts:45-61 | the same guard; otherwise upserts the pose without a name |
| UseRemotePlayersSync.OnRemove | src/hooks/useRemotePlayersSync.ts:41-43 | removes the key |
| UseRemotePlayersSync.Subscription.constructor | src/hooks/useRemotePlayersSync.ts:18-19 | nothing subscribed or unsubscribed yet |
| UseRemotePlayersSync.Subscription.Subscribe | src/hooks/useRemotePlayersSync.ts:19-65 | subscribes exactly when there is a room state |
| UseRemotePlayersSync.Subscription.Teardown | src/hooks/useRemotePlayersSync.ts:67-71 | calls the add, remove and change unsubscribers once each, in that order, only if subscribed |
| UseRemotePlayersSync.MountUnmount | src/hooks/useRemotePlayersSync.ts:63-71 | mount then unmount, even repeated, calls each unsubscriber exactly once |
| CharacterController.TeleportedPosition | src/hooks/useCharacterController.ts:34-35 | a pending teleport's position replaces the character's |
| CharacterController.TeleportedRotation | src/hooks/useCharacterController.ts:36-38 | the teleport's rotation applies only when it has one and a model is loaded |
| CharacterController.FallReset | src/hooks/useCharacterController.ts:43-45 | a position below y = −10 becomes the origin; afterwards y ≥ −10 |
| CharacterController.Tick | src/hooks/useCharacterController.ts:29-59 | with no character nothing changes; otherwise the teleport is applied and cleared, a fallen character is reset, and the pose and animation are stored; MOVE is sent iff connected with a room, from the stored state; the grid cell follows the post-reset position |
| CharacterController.FallenCharacterRespawns | src/hooks/useCharacterController.ts:43-58 | a fallen character with no teleport ends at the origin, in the origin cell |
| StorePorts.RegistryPort.Upsert | src/components/ColyseusManager.tsx:31 | records one upsert |
| StorePorts.RegistryPort.Remove | src/components/ColyseusManager.tsx:32 | records one removal |
| StorePorts.RegistryPort.Clear | src/components/ColyseusManager.tsx:33 | records one clear |
| StorePorts.LocalIdPort.SetId | src/components/ColyseusManager.tsx:26 | the local id becomes the given one |
| StorePorts.TeleportPort.ClearPending | src/hooks/useCharacterController.ts:39 | the pending teleport becomes null |

## Left out

- The transport library (`Client`, `joinOrCreate`, `send`, `leave`) and the
  `use-colyseus` `connectToColyseus`/`disconnectFromColyseus` are left out:
  they are external code. Joins are outcomes given as parameters, and sends
  are returned values.
- The connect part of the `ColyseusManager` mount effect is left out: it only
  awaits `connectToColyseus` and logs failures.
- The no-op listeners that the `ColyseusManager` listen effect registers on
  clean-up are left out: they replace handlers inside the transport library.
- The log-only `onAdd`/`onRemove` listeners of multiplayerStore.connect, and
  all console logging, are left out: they change no state.
- Interleavings of asynchronous continuations with other events are not
  explored. Each `await` splits an operation into two methods, and any
  sequence of calls is allowed.
- Floating point is not modelled: reals are exact, so there is no NaN and no
  rounding error.
- LocalPlayerStore.Store.SetPosition and LocalPlayerStore.Store.SetRotation:
  rounding to two decimals (`roundToDecimals`) and the wrapping of angles
  with JavaScript `%` are policy parameters (`roundPosition`,
  `normalizeRotation`), so no range is promised for them.
- SnapshotBuffer.RotationBuffer.Frame: `setFromEuler` and `slerp` are
  parameters. Quaternion arithmetic is three.js numerics, so only the
  first-frame copy and the choice between copy and slerp are proved.
- The throttle constant `MOVEMENT_UPDATE_THROTTLE` is not modelled because
  no code reads it.
- Environment variables are parameters (`ColyseusLib.Endpoint`) or the
  defaults (`MultiplayerStore.DEFAULT_SERVER_URL`). `Date.now()` is the
  `now` parameter.
- The optional chaining on `room.state.players` in the library and in the
  hooks is not modelled: the schema always creates the players map, so the
  listeners are assumed to be registered.
- The enumeration order of object keys in `setAction`'s `Object.entries` is
  taken to be the order of the given entries. This ignores JavaScript's rule
  that integer-like keys come first.
- A payload key whose value is `undefined` counts as absent (`Option.None`).
  This applies to `updatePlayer`'s spread and `addOrUpdatePlayer`'s object.
- `pendingTeleport` in `useCharacterController` is the value captured at
  render time, passed to each tick. The model does not track when React
  re-renders.
- Asset loading, rendering, UI, lighting and the remote avatar's
  interpolation of rotation differences are not part of this model.
