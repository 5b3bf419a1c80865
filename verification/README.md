# Open World: world-state synchronisation in Dafny

This project models the synchronisation core of the Open World shared 3D
world. It has four parts:

- The authoritative socket server holds `players`, a map from socket id to
  player record. It reacts to `connection`, `move`, `chat`, `audio` and
  `disconnect`, and emits `init`, `player_joined`, `player_moved`, `chat`,
  `player_audio` and `player_left`.
- The earlier JavaScript server has no chat or audio.
- Two kinds of client keep a replica of that map: the browser's zustand store
  and the "Ghost" agent SDK, the latter in both its TypeScript and its
  JavaScript form. Each applies the server's messages and its own optimistic
  moves.
- Three small pure helpers: the keyboard step of `Controls`, the seeding
  hash of the terrain noise, and the window of terrain chunks around the
  player.

Every handler is a pure function. Server handlers return the next world and
an outbox. Each outbox message has an audience: one socket, every open socket
but one, or every open socket. A run of the server is a sequence of events,
because the event loop runs one handler at a time. The transport's socket id
and `Date.now()` are event parameters. Numbers are exact reals. Where the
source does 32-bit integer arithmetic, the wrap-around is written out.

Modules:

- `Wrappers`, `Geometry` and `Protocol` hold the shared datatypes and the
  message vocabulary.
- `Server` models `packages/server/src/index.ts`; `LegacyServer` models
  `packages/server/index.js`.
- `Replica` holds the client-side record and the three map reducers. `Store`
  models `packages/client/app/store.ts`.
- `Ghost` models `packages/ghost/src/Ghost.ts`; `GhostJs` models
  `packages/ghost/index.js`.
- `Controls` models the `useFrame` step of `Controls.tsx`.
- `Decimal` and `Terrain` model `Terrain.tsx`.
- `Sync` connects the server and the browser client.

Behaviour worth noting:

- A joiner's `init` snapshot is taken after its own spawn, so it contains the
  joiner itself. When two clients join, the second one's snapshot therefore
  has two records, not one (`Sync.TwoJoiners`).
- Remote-entity smoothing does not exist. The lerp in
  `packages/client/app/components/Player.tsx:19-20` is commented out, so
  there is no interpolator to model.
- The store drops a local move when there is no socket object or the id is
  `null` or `""`.
- The server relays a move by spreading the payload over `{ id: socket.id }`,
  so a payload carrying its own `id` is relayed under that id. `Server.OnMove`
  does the same (see Findings). The convergence theorem holds for runs whose
  move payloads carry no `id`, which is what the store and both ghosts send.

## Model

| member | source | states |
|---|---|---|
| Server.OnConnect | packages/server/src/index.ts:37-49 | spawns `{id, [0,0,0], [0,0,0], 'default_humanoid'}` under the new id, other records untouched; unicasts `init` whose snapshot is the post-spawn world (so it contains the joiner), then sends `player_joined` with the new record to everyone but the joiner |
| Server.OnMove | packages/server/src/index.ts:52-58 | a known sender's position and rotation are overwritten while its id and avatar and every other record stay; exactly one `player_moved` with the payload's pose goes to all but the sender, under the sender's id when the payload has no `id` and under the payload's `id` when it has one; a sender with no record changes nothing and emits nothing |
| Server.RelayedMove | packages/server/src/index.ts:56 | the relayed move names the sender and carries the payload's pose (corrected form, see Findings) |
| Server.RelayedMoveAsWritten | packages/server/src/index.ts:56 | `{ id: socket.id, ...data }`: an `id` in the payload replaces the sender's id in the relayed message |
| Server.SpoofedMoveIsRelayedAsAnotherPlayer | packages/server/src/index.ts:53-56 | counterexample: the server's move handler relays sender "a" with payload id "b" as a move of "b", while it moves "a" and leaves "b" where it was; the intended relay would name "a" |
| Server.OnChat | packages/server/src/index.ts:61-70 | world unchanged; one chat message with sender id, the socket's name, the text and the supplied clock reading, addressed to every socket including the sender |
| Server.OnAudio | packages/server/src/index.ts:73-77 | world unchanged; the bytes are relayed untouched as `{id, buffer}` to all but the sender |
| Server.OnDisconnect | packages/server/src/index.ts:79-83 | only the leaver's record is deleted and `player_left(id)` goes to every socket |
| Server.DisconnectIsIdempotent | packages/server/src/index.ts:81 | deleting the same id twice leaves the world of deleting it once |
| Server.LateMoveIsDropped | packages/server/src/index.ts:53 | a move arriving after its sender's disconnect changes nothing and emits nothing |
| Server.Step | packages/server/src/index.ts:34-84 | an event of one socket never adds, removes or changes another socket's record |
| Server.KeysAreOpenConnections | packages/server/src/index.ts:32-83 | over any run with fresh socket ids, the world's keys are exactly the ids that connected and have not disconnected |
| Server.RecordsAreSelfKeyed | packages/server/src/index.ts:38-55 | over any run every record sits under its own id and keeps the default avatar |
| LegacyServer.Step | packages/server/index.js:20-52 | same spawn, snapshot-after-spawn, join broadcast, silent unknown move and disconnect as the current server (the known move, with the same payload-`id` spread at line 43, is stated by `LegacyServer.AgreesWithServer`); `chat` and `audio` have no handler, so they change nothing and emit nothing |
| LegacyServer.AgreesWithServer | packages/server/index.js:20-51 | for connect, move and disconnect, world and outbox coincide with the TypeScript server's |
| LegacyServer.RunAgreesWithServer | packages/server/index.js:18-52 | over any run without chat or audio the two servers produce the same world and the same outbox |
| Replica.FromSnapshot | packages/client/app/store.ts:36-38 | the replica after `init` has exactly the snapshot's ids, each with the received record |
| Replica.Upsert | packages/client/app/store.ts:40-44 | `player_joined` inserts or overwrites under `newPlayer.id`, every other entry unchanged |
| Replica.ApplyMoved | packages/client/app/store.ts:46-60 | `player_moved` for an unknown id returns the replica unchanged; for a known id only position and rotation change, id, avatar and other entries are kept |
| Replica.Remove | packages/client/app/store.ts:62-68 | `player_left` removes the id and nothing else; removing an absent id is a no-op |
| Replica.RemoveIsIdempotent | packages/client/app/store.ts:62-68 | a repeated `player_left` changes nothing |
| Replica.MovedAfterLeftIsIgnored | packages/client/app/store.ts:46-68 | a stale `player_moved` after `player_left` for the same id is ignored |
| Replica.ReducersTrackWorld | packages/client/app/store.ts:40-68 | upsert, move and remove on the replica of a world give the replica of the server's updated world |
| Store.Connect | packages/client/app/store.ts:26-27 | after `connect()` a socket exists; with one already present nothing changes |
| Store.ConnectIsIdempotent | packages/client/app/store.ts:27 | a second `connect()` changes nothing |
| Store.Receive | packages/client/app/store.ts:31-68 | `connect` sets `myId` to the socket id; `init` replaces the players wholesale; join, move and leave act as the Replica reducers; chat and audio are not handled |
| Store.Move | packages/client/app/store.ts:73-88 | no-op without a socket or with an unset id; otherwise the own entry gets the new pose with its other fields kept (only the pose if it was absent), no other entry changes, and exactly one `move {position, rotation}` is sent |
| Store.MoveBeforeConnectIsNoOp | packages/client/app/store.ts:21-24 | in the initial state (no socket, no players, no id) a local move changes nothing and sends nothing |
| Ghost.Connect | packages/ghost/src/Ghost.ts:26-27 | `connect()` creates a socket whose id is not yet known; players and `me` are untouched |
| Ghost.Receive | packages/ghost/src/Ghost.ts:26-71 | `init` replaces players and binds `me` to the own socket id's record or to null if absent; join upserts, move ignores unknown ids and otherwise changes only the pose, leave deletes; chat and audio leave the state alone |
| Ghost.Move | packages/ghost/src/Ghost.ts:76-87 | no socket: nothing; otherwise sends position `[x,0,z]` and rotation `[0,0,0]`, and when `me` is set only its position changes (rotation kept, no other entry touched) |
| Ghost.Say | packages/ghost/src/Ghost.ts:92-96 | sends the text exactly when a socket exists |
| Ghost.SendAudio | packages/ghost/src/Ghost.ts:101-104 | sends the bytes exactly when a socket exists |
| Ghost.Look | packages/ghost/src/Ghost.ts:109-135 | location is `me.position` or `[0,0,0]`; the own id is never listed; an entry is listed, with its position, exactly when its ground-plane distance from the location is below 50; the environment text is fixed |
| Ghost.NearMatchesRootTest | packages/ghost/src/Ghost.ts:117-121 | the squared-distance test selects exactly what `Math.sqrt(dx*dx + dz*dz) < 50` selects |
| GhostJs.Connect | packages/ghost/index.js:16-17 | `connect()` creates a socket whose id is not yet known; players and `me` are untouched |
| GhostJs.Receive | packages/ghost/index.js:24-44 | the same reducers as the TypeScript ghost, but `init` leaves `me` undefined, not null, when the own id is missing |
| GhostJs.Move | packages/ghost/index.js:52-66 | no socket: nothing; otherwise sends `[x,0,z]` and `[0,0,0]` and updates only `me.position`, only when `me` is set |
| GhostJs.Look | packages/ghost/index.js:72-93 | throws exactly when there is no socket and the replica is not empty; otherwise the location is `me.position` or `[0,0,0]`, the own id is excluded, an entry is listed with its position exactly when it lies within planar distance 50 of the location, and the environment text is fixed |
| GhostJs.ReceiveAgreesWithTs | packages/ghost/index.js:16-44 | every handler acts as the TypeScript ghost's once null and undefined are identified |
| GhostJs.MoveAgreesWithTs | packages/ghost/index.js:52-66 | `move` sends the same message and makes the same local update as the TypeScript ghost's |
| GhostJs.LookAgreesWithTs | packages/ghost/index.js:72-93 | with a socket, `look` returns exactly what the TypeScript ghost's returns |
| GhostJs.InitNeverLeavesNull | packages/ghost/index.js:24-28 | after `init`, `me` is a record reference or undefined, never null |
| Controls.FrameIntent | packages/client/app/components/Controls.tsx:24-39 | no pose without an id, without its record or without a movement key; otherwise x and z move by `5*delta` per held direction (W/Up -z, S/Down +z, A/Left -x, D/Right +x, additive, opposing keys cancel), y is kept and the rotation is `[0,0,0]` |
| Controls.Frame | packages/client/app/components/Controls.tsx:38-39 | with no pose the store is untouched and nothing is sent; with a pose and a socket the own record takes that pose and one `move` is sent |
| Terrain.ToInt32 | packages/client/app/components/Terrain.tsx:13 | the `or 0` truncation (and `Math.imul`) yields the signed 32-bit integer congruent modulo 2^32 to its operand |
| Terrain.Hash | packages/client/app/components/Terrain.tsx:9-16 | the hash is always within [-2^31, 2^31) |
| Terrain.ComputeHash | packages/client/app/components/Terrain.tsx:9-16 | the source loop (multiply by 31 with `Math.imul`, add the code unit, truncate to 32 bits, starting from 0) computes the hash: 0 for the empty string, always in 32-bit range |
| Terrain.HashIsWrappedPolynomial | packages/client/app/components/Terrain.tsx:10-15 | wrapping at every step equals reducing the exact polynomial `sum code[i] * 31^(n-1-i)` once to a signed 32-bit integer |
| Terrain.DefaultSeedHash | packages/client/app/components/Terrain.tsx:54 | the default seed 42 seeds the noise with `hash("42") = 1662` |
| Terrain.ChunkIndex | packages/client/app/components/Terrain.tsx:178 | the chunk index `c` of a coordinate `v` satisfies `64c <= v < 64(c+1)` |
| Terrain.PlayerChunk | packages/client/app/components/Terrain.tsx:178-179 | the player chunk is fixed by x and z alone: `64cx <= x < 64(cx+1)` and `64cz <= z < 64(cz+1)`; y is ignored |
| Terrain.ChunkKeyRoundTrip | packages/client/app/components/Terrain.tsx:188 | the key `"cx,cz"` reads back to `(cx, cz)` |
| Terrain.ChunkKeyInjective | packages/client/app/components/Terrain.tsx:188 | distinct chunks never share a key |
| Terrain.ActiveChunks | packages/client/app/components/Terrain.tsx:181-193 | exactly `(2r+1)^2` chunks (none for negative r); a chunk appears exactly when it lies within Chebyshev distance r of the centre and carries the key `"cx,cz"`; entries are ordered dx-outer, dz-inner, ascending, so each appears once and keys are unique |
| Terrain.ChunkManager | packages/client/app/components/Terrain.tsx:174-193 | the chunks around the player's chunk: `(2r+1)^2` of them (none for negative r), a chunk listed exactly when it lies within Chebyshev distance r of the player's chunk and carries its key, dx-outer/dz-inner order, unique keys; the player's own chunk is among them |
| Terrain.DefaultTerrain | packages/client/app/components/Terrain.tsx:208-210 | `<Terrain />` shows the nine chunks from (-1,-1) to (1,1) around the origin |
| Decimal.FromInt | packages/client/app/components/Terrain.tsx:188 | `${n}` is a non-empty digit string with a leading `-` for negatives, no leading zero except for `0` itself, and never a comma |
| Decimal.FromIntRoundTrip | packages/client/app/components/Terrain.tsx:188 | every integer reads back from its decimal rendering |
| Sync.ReplicaMatchesServer | packages/server/src/index.ts:34-84 | with fresh ids, move payloads without an `id`, and lock-step delivery (each server step's messages reach the client before the server's next event, and the client's own move is applied in the step the server handles it), an open browser client's replica equals the server's world after every event: its own moves are applied optimistically, other updates arrive through `init`, `player_joined`, `player_moved` and `player_left` |
| Sync.ClientKeepsIdentity | packages/client/app/store.ts:31-34 | the client keeps its socket and `myId` throughout a run |
| Sync.TwoJoiners | packages/server/src/index.ts:38-49 | when "a" then "b" connect, b's `init` snapshot holds both a and b, and a receives `player_joined` for b |
| Sync.GhostMoveReachesWorld | packages/ghost/src/Ghost.ts:76-82 | a ghost's `move(x, z)`, received by the server, stores `[x,0,z]` and `[0,0,0]` for the ghost's socket and relays that pose under its id to everyone else |

## Left out

- Transport: socket.io, express, CORS, the server URL and port, and console logging. Events are a list and the outbox a list. JSON encoding is the identity. A message reaches exactly the sockets its audience names.
- Sync.ReplicaMatchesServer: delivery is lock-step. Every message of one server step reaches the client before the server's next event, and the client's own move is applied in the same step the server handles it, so all connections share one total order. With per-connection FIFO queues and latency the replica can lag the world, and only the drained state could be equal; that is not proved.
- A socket event arriving at a client before `connect()`: the model treats it as a no-op, because no listener is registered yet.
- Ghost `me`: in the source `me` is an object reference. The model keeps it as a key into `players`. The two differ only if the ghost's own entry is deleted or replaced. That needs a `player_left` or `player_joined` naming the ghost's own live id, and the server never sends either.
- Ghost `connect()` called twice: the source opens a second socket and leaves the first one alive. The model only resets the link to "created, not yet connected".
- `look()` entity order follows `Object.entries`. The model returns a map from id to position, so the order is lost. The `toFixed(2)` distance strings are not modelled.
- The ghosts' EventEmitter notifications (`connected`, `ready`, and the re-emitted `chat`) are not modelled. The handlers' effect on the state is.
- `getState()` and `getId()` are plain accessors and are not modelled.
- The server never sets `socket.data.name`, so it is always undefined. The model makes the name an input of the chat event.
- Floating point: positions, rotations and `delta` are exact reals. As a result `(x - s) + s == x` holds for opposing keys, which IEEE doubles do not guarantee.
- Number formatting covers integers only. The exponent form JavaScript uses at magnitude 1e21 and above is left out, and so are `-0` and non-integer render distances. A non-integer or string seed is covered only by `Terrain.Hash` over code units.
- Strings for the hash are UTF-16 code units. Converting arbitrary Unicode text to UTF-16 is left out. ASCII text, which is all the seeds and keys here use, is converted.
- The camera follow in `Controls.tsx` and the key-listener bookkeeping are left out. The held keys are an input set of key codes. `Controls` reads the store's render-time snapshot, which the model takes to be the current state.
- Rendering, physics, terrain heights and colours (`fbm`, simplex noise, the `Math.sin` generator), grass, trees, ocean, music, the bots' timers and random walks, and the language-model calls: these are floating-point, foreign or random code outside the synchronisation core.
- `LegacyServer.Step`: its contract states the connect, disconnect, unknown-move and ignored chat/audio cases. The known-move case is covered by `LegacyServer.AgreesWithServer`.

## Findings

| source | as written | input that shows it | evidently intended | confidence | as-written member | corrected member |
|---|---|---|---|---|---|---|
| packages/server/src/index.ts:56 | `player_moved` is built as `{ id: socket.id, ...data }`. An `id` property in the client's payload overrides the sender's id. `packages/server/index.js:43` does the same. | Socket "a" sends `move {position: [1,0,0], rotation: [0,0,0], id: "b"}`. Every other client sees "b" move, while the server stores the pose for "a". | The relayed id is always the sender's, as the `{ id } & MoveData` event type and the server's own update of `players[socket.id]` suggest. | high, not executed | Server.RelayedMoveAsWritten | Server.RelayedMove |
