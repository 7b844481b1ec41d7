# mangovillage game-server core, modelled in Dafny

mangovillage is a multiplayer game built on the Bevy engine. Its repository holds two
generations of the game:

- an older 2D version (`src/`). Its server loads an LDtk world of linked levels with
  player spawns and portals. It admits and drops players against the transport's
  connection list, applies each client's latest move, and sends every level's player
  positions to the players in that level;
- a newer 3D workspace (`server/`, `client/`, `common/`). Its server registers packets,
  loads a glTF scene, spawns a kinematic character for each connecting client, steers it
  from `Movement` packets, applies gravity fallbacks and broadcasts a `Players` snapshot.
  The client keeps a mirror of the server's players and reconciles it with each snapshot.

The model follows each core source file with one Dafny module:

- Bevy systems that loop over queries become methods with loop invariants. Each is proved
  against a specification function.
- Resources the systems mutate (the player tables, the `World` resource, a system's
  `Local` counter, the client's player mirror) become classes.
- Pure helpers (coordinate conversion, registration checks, state requests) become
  functions with lemmas.

The engine's deferred `Commands` are modelled as returned insertions or spawns, applied
after the loop. `NextState` writes are a returned `Option` of the requested state.

The following are parameters of the model:

- every transport call: send, broadcast, close, the address↔id lookups, received packets;
- the random level pick;
- the physics outputs;
- the portal-aware move routine of the older server, whose body is not part of this model.

A panic (`unwrap`, `assert!`, `panic!`) is modelled as an outcome of the operation, never
as a precondition.

Module map:

| module | source |
|---|---|
| `Common`, `Packets` | shared ids, `Option`, vectors, packet records (`common/src/networking`, `common/src/resource`) |
| `Registration` | `common/src/util.rs` and the start-up gate of both `init_server`s |
| `Coordinates` | `src/world/util.rs` |
| `Colliders` | the mesh-to-collider scan shared by `client/src/physics`, `server/src/physics` and `tst` |
| `LegacyCommon`, `LegacyServer`, `LegacyWorld`, `LegacyPlayer`, `LegacyPlayerServer` | `src/common`, `src/server/server.rs`, `src/world/server.rs`, `src/player/mod.rs`, `src/player/server.rs` |
| `ServerStates`, `ServerNetworking`, `ServerWorld`, `ServerPhysics`, `ServerPlayer` | `server/src/...` |
| `ClientStates`, `ClientWorld`, `ClientPhysics`, `ClientPlayer` | `client/src/...` |
| `ServerLifecycle` | the newer server's state systems run frame after frame |
| `Sync` | the newer server's broadcast applied by the client's mirror |

## Model

| member | source | states |
|---|---|---|
| Registration.ValidateRegisterResults | common/src/util.rs:4-13 | the verdict is true iff every registration succeeded; one log line per failure, in order, with the `client`/`server` prefix chosen by `is_client` |
| Registration.AllRegisteredOrderFree | common/src/util.rs:6-12 | the verdict depends only on the multiset of results, not their order |
| Registration.FailureIsFatal | common/src/util.rs:7-9 | one failed registration anywhere makes the verdict false; an empty list passes |
| Registration.FailuresEmptyIffAllRegistered | common/src/util.rs:6-12 | nothing is logged exactly when every registration succeeded |
| Registration.StartupGate | server/src/networking/mod.rs:44-52 | start-up succeeds iff receives, sends and transport all succeed; a receive failure panics first, then a send failure |
| LegacyServer.InitServer | src/server/server.rs:30-41 | the older server starts iff `Move`, `SpawnPlayer` and `UpdatePositions` register and the transport binds; which panic fires for each failure |
| ServerNetworking.InitServer | server/src/networking/mod.rs:35-56 | the newer server starts iff all three receive and all three send registrations succeed and the transport binds; the receive panic takes precedence |
| ServerNetworking.RegisteredTriple | server/src/networking/mod.rs:38-42 | a three-packet registration passes iff each of its three packets registered |
| Coordinates.Rem | src/world/util.rs:12 | Rust's `%` on `i32`: dividend = divisor × truncated quotient + remainder, the remainder smaller than the divisor in magnitude and signed like the dividend |
| Coordinates.LdtkToMapCoordinates | src/world/util.rs:2-18 | the conversion as written keeps x unchanged |
| Coordinates.PaddingOnGrid8 | src/world/util.rs:12-16 | on the game's grid size 8 the padding is `(8 - h mod 8) mod 8`, in 0..7, and pads the height to a multiple of 8 |
| Coordinates.PaddingMissesResetOffGrid8 | src/world/util.rs:14 | on any grid size other than 8, a height that is already a multiple gets a whole extra cell of padding |
| Coordinates.PaddingOffGrid8Example | src/world/util.rs:12-17 | grid 16, height 32: padding 16, and LDtk (0, 0) lands at y 48 instead of 32 |
| Coordinates.YFlipReversesOrder | src/world/util.rs:17 | converted y strictly decreases as LDtk y increases; the LDtk top edge maps to the padded height |
| Coordinates.YFlipInvolutive | src/world/util.rs:17 | converting twice with the same grid and height gives back the original point |
| Coordinates.WorkedExample | src/world/util.rs:12-17 | grid 8, height 100, y 10 → padding 4, y 94 |
| Coordinates.IntendedPaddingRoundsUp | src/world/util.rs:10-16 | the corrected padding lies in 0..g-1 and rounds every non-negative height up to a multiple of any positive grid size g |
| Coordinates.MapCoordinates | src/world/util.rs:2-18 | the corrected conversion keeps x and agrees with the as-written one on grid 8 |
| Colliders.ProductiveExactly | client/src/physics/mod.rs:27-33 | an (entity, collider) insertion happens iff that mesh entity yields that collider |
| Colliders.ProductiveEmptyIff | client/src/physics/mod.rs:27-33 | a scan inserts something iff some mesh yields a collider |
| Colliders.AttachColliders | client/src/physics/mod.rs:26-33 | the scan loop inserts exactly the yielded colliders in query order, and `done` is set iff one was yielded |
| Colliders.TwoProductiveFrames | client/src/physics/mod.rs:35-40 | the frame counter reaches 2 iff two distinct frames were productive |
| Colliders.OneProductiveFrame | client/src/physics/mod.rs:35-37 | the frame counter is positive iff some frame was productive |
| ClientPhysics.ColliderLoader.LoadColliders | client/src/physics/mod.rs:12-42 | runs only in `LoadingLevel`; inserts the yielded colliders, counts productive frames, and requests `Running` iff the count reaches 2 |
| ServerPhysics.ColliderLoader.LoadColliders | server/src/physics/mod.rs:9-38 | the same loader gated on `LoadPhysics` |
| LegacyWorld.Tst | src/world/server.rs:52-64 | in `LoadedWorld`, inserts the yielded colliders and requests `Running` iff some mesh yielded one; does nothing in any other state |
| LegacyWorld.CacheWorld | src/world/server.rs:94-117 | waits while the LDtk asset loads; panics on a missing level asset or a level with more than 4 neighbours; otherwise caches one map per level and requests `LoadEntities` iff the level count equals `LEVEL_IIDS`'s length |
| LegacyWorld.CachedMapGeometry | src/world/server.rs:100-109 | each cached map's bounds are offset by the level entity's translation and span the level's pixel size; world coordinates `(world_x, -world_y)`; at most 4 neighbours; no portals |
| LegacyWorld.CountCheckIgnoresIids | src/world/server.rs:112 | the level-count assertion compares sizes only: six levels none of which is in `LEVEL_IIDS` pass it |
| LegacyWorld.PortalInfoOf | src/world/server.rs:153-159 | a portal's bounds start at its LDtk corner converted as written (`ldtk_to_map_coordinates`), shifted into world space and span its width right and its height down; destination and link are kept |
| LegacyWorld.WorldResource.LoadEntities | src/world/server.rs:121-174 | waits without a spawn; panics on a spawn or portal in an unknown level or a portal to an unknown destination; waits without a portal after placing spawns; otherwise stores spawns and portals and requests `LoadedWorld` |
| LegacyWorld.PanicPersists | src/world/server.rs:131-137 | once the spawn loop panics, the whole loop ends in that panic |
| LegacyWorld.PortalPanicPersists | src/world/server.rs:147-161 | once the portal loop panics, the whole loop ends in that panic |
| LegacyWorld.PlaceSpawnsKeepsShape | src/world/server.rs:131-137 | placing spawns keeps the set of levels and changes only spawn positions |
| LegacyWorld.PlacePortalsKeepsShape | src/world/server.rs:147-161 | placing portals keeps the set of levels, changes only portal lists, and only appends to them |
| LegacyWorld.PortalJoinsOwnLevel | src/world/server.rs:159 | a portal is appended to its own level's list and to no other |
| LegacyWorld.PortalsAbortIff | src/world/server.rs:148-151 | the portal loop panics iff some portal leads to or sits in a level the table lacks |
| LegacyWorld.PlacePortalsKeepsDestinationsKnown | src/world/server.rs:151 | the portal loop preserves "every stored portal leads to a known level" |
| LegacyWorld.LoadedWorldIsClosed | src/world/server.rs:94-174 | a world loaded from a fresh cache has exactly the cached levels and every portal leads to one of them |
| LegacyServer.FindNewPlayers | src/server/server.rs:46-53 | collects exactly the connections whose id has no player, each address once, and none while the connection count equals the player count |
| LegacyServer.NewcomerPairsIds | src/server/server.rs:46-57 | the ids of the collected newcomers are exactly the newcomer ids |
| LegacyServer.NewcomerIdsAreUnknown | src/server/server.rs:47-50 | an id is admitted iff it is connected and has no player, once the connection count differs from the player count; while the counts are equal no id is admitted |
| LegacyServer.CountGateExample | src/server/server.rs:47 | one connection and one stale player: the connected id without a player is held back |
| LegacyServer.Players.AcceptNewPlayer | src/server/server.rs:43-59 | adds a `(0, 0)` entry for every newcomer id and keeps every existing entry |
| LegacyServer.Players.InsertAtOrigin | src/server/server.rs:55-58 | each listed id gets a `(0, 0)` entry, every other entry is unchanged |
| LegacyPlayer.MoveIsUnitStep | src/player/mod.rs:46-53 | a move changes exactly one coordinate by exactly 1, in the named direction |
| LegacyPlayer.OppositeMovesCancel | src/player/mod.rs:46-53 | left then right, right then left, up then down, down then up all return to the start |
| LegacyPlayer.HandleMove | src/player/mod.rs:46-53 | the position component becomes the moved position |
| LegacyPlayer.SyncedAligns | src/player/mod.rs:39-40 | syncing copies x and y into the translation, keeps z, leaves the sprite in sync, and is idempotent |
| LegacyPlayer.TransformPositions | src/player/mod.rs:37-43 | every sprite ends in sync with its position, and exactly the out-of-sync ones are written |
| LegacyPlayer.SpawnPlayer | src/player/mod.rs:22-35 | a spawned sprite has the given id and position, and is out of sync iff the position is not the origin |
| LegacyPlayerServer.SpawnPlayer | src/player/server.rs:123-147 | a spawned player sits at its spawn point at depth 10, not in a portal, in its level |
| LegacyPlayerServer.NewcomerIdsDistinct | src/player/server.rs:41-48 | with an injective connection list the collected newcomers have distinct ids |
| LegacyPlayerServer.PlayerWorld.FindRemovedPlayers | src/player/server.rs:29-39 | the removed players are exactly those whose id is no longer connected |
| LegacyPlayerServer.PlayerWorld.AcceptNewPlayer | src/player/server.rs:27-65 | panics iff some newcomer's random level has no map; otherwise despawns the disconnected players and spawns every newcomer at its level's spawn point with exactly one `SpawnAck` to each; failed sends are exactly the ones only logged |
| LegacyPlayerServer.SpawnNewcomers | src/player/server.rs:50-59 | for each newcomer in order, a player placed in its chosen level and one `SpawnAck`; panics iff some chosen level has no map |
| LegacyPlayerServer.NewcomersSpawned | src/player/server.rs:41-59 | the spawned players and acknowledgements are exactly one per newcomer of the connection list |
| LegacyPlayerServer.Respawned | src/player/server.rs:50-64 | the new table is the old one minus the despawned ids plus the spawned ones, other entries unchanged |
| LegacyPlayerServer.GroupByLevel | src/player/server.rs:72-81 | panics iff some player's level has no map; otherwise one group per occupied level, holding exactly its players' addresses and level-relative positions, pairwise, each player once |
| LegacyPlayerServer.GroupReportsLevel | src/player/server.rs:73-80 | a finished group reports exactly the ids of the level's players, each once, with their positions relative to the level |
| LegacyPlayerServer.SendPlayerPositions | src/player/server.rs:70-90 | panics iff some player's level has no map; otherwise every player's address is sent the ids and level-relative positions of exactly the players of its level, each listed once, every message sent goes to a player of the level it reports, exactly one message goes out per player, and the failed sends are exactly the ones only warned about |
| LegacyPlayerServer.SendToGroup | src/player/server.rs:84-88 | one copy of the message per address of the group, in order, and the failures are exactly the undelivered addresses |
| LegacyPlayerServer.PlayerWorld.HandlePlayerMove | src/player/server.rs:92-121 | panics iff a client with a non-empty batch is unknown to the transport; otherwise each moving player becomes the result of its latest move (portal flag, translation, and the requested level only if `ChangeLevel` was sent), every other player and every address and position are unchanged, and exactly the requested level changes are sent, each once |
| ServerNetworking.Spawns | server/src/networking/mod.rs:65 | each connecting client spawns one default player entity with a fresh entity handle, its address and its id |
| ServerNetworking.Greetings | server/src/networking/mod.rs:67-81 | each connecting client gets a `ConnectAck` with its id, then a `SpawnScene` of the big level |
| ServerNetworking.ConnectAll | server/src/networking/mod.rs:59-84 | panics iff a connecting client has no address or a greeting fails to send; otherwise lists each connecting client once with its address |
| ServerNetworking.HandleConnects | server/src/networking/mod.rs:59-84 | the player table grows by one default entity per connecting client, and exactly the greetings are sent |
| ServerNetworking.ReconnectDuplicates | server/src/networking/mod.rs:61-65 | a client that connects again while its entity exists gets a second entity with the same id |
| ServerNetworking.MarkLeavers | server/src/networking/mod.rs:88-101 | the players to remove are exactly the senders of non-empty `Disconnect` batches; close failures are only logged |
| ServerNetworking.KeptExactly | server/src/networking/mod.rs:104-110 | a player stays iff it did not leave and its id is still connected |
| ServerNetworking.KeptShrinks | server/src/networking/mod.rs:104-110 | removal never grows the table and keeps it whole when everyone stays |
| ServerNetworking.HandleLeaves | server/src/networking/mod.rs:86-111 | the table keeps exactly the players that did not leave and are still connected, in order |
| ServerNetworking.TransitionLoadWorld | server/src/networking/mod.rs:113-117 | `StartUp` requests `LoadWorld`, the next state in order; no other state requests anything |
| ServerWorld.LoadWorldSystem | server/src/world/mod.rs:10-24 | in `LoadWorld` it loads the volcano island and requests `Running`; it never requests `LoadPhysics` |
| ServerLifecycle.LoadPhysicsNeverEntered | server/src/world/mod.rs:23 | from `StartUp` the server is in `LoadWorld` after one frame and `Running` from the second on, never entering `LoadPhysics` |
| ServerPlayer.SpawnPlayer | server/src/player/mod.rs:129-166 | a spawned player uses model 0, a valid index, sits at (-10, 0, 100) scaled 0.05, with no requested translation |
| ServerPlayer.FindController | server/src/player/mod.rs:40-48 | the search panics iff the sender is unknown and some controller has its address; otherwise finds the first controller matching both address and id |
| ServerPlayer.Steer | server/src/player/mod.rs:34-53 | panics iff some sender has an empty batch or is unknown; otherwise steers exactly the first matching controller of each sender from its latest movement; on a panic the senders handled before the offending one have already steered theirs |
| ServerPlayer.OneControllerPerSender | server/src/player/mod.rs:46 | no two controllers are both the first match of one sender |
| ServerPlayer.UnmatchedSenderIgnored | server/src/player/mod.rs:49-51 | a sender without a matching controller steers nothing |
| ServerPlayer.Gravity | server/src/player/mod.rs:55-110 | the fallbacks as written: a collision turns no translation into zero; no output or airborne turns no translation into a fall; an existing translation is never changed; the result is none only for a grounded, collision-free controller without one |
| ServerPlayer.SteeredControllerNeverFalls | server/src/player/mod.rs:95-107 | as written, a steered controller keeps its vertical component even when airborne or without output |
| ServerPlayer.IntendedGravityFalls | server/src/player/mod.rs:92-108 | with the corrected fallbacks every airborne or output-less controller falls at -10 and keeps its horizontal steering; grounded ones behave as written |
| ServerPlayer.ApplyGravity | server/src/player/mod.rs:55-110 | every controller gets the as-written fallbacks for its own output, in order, so a steered controller keeps its steering vector |
| ServerPlayer.PlayerTable.PlayersMove | server/src/player/mod.rs:27-112 | panics iff some sender's batch is empty or unknown; otherwise each controller's requested translation is its steering followed by the as-written fallbacks, nothing else changes; on a panic the senders handled before the offending one have already steered their controllers and no fallback has run |
| ServerPlayer.Snapshot | server/src/player/mod.rs:117-125 | one snapshot entry per player, in query order, with its id, model, translation and scale |
| ServerPlayer.SnapshotCoversPlayers | server/src/player/mod.rs:117-125 | an id is in the snapshot iff some player has it |
| ServerPlayer.BroadcastPlayers | server/src/player/mod.rs:114-127 | a failed broadcast panics; otherwise one `Players` message carrying the snapshot of the players, one entry per player |
| ClientWorld.SpawnSceneSystem | client/src/world/mod.rs:12-30 | in `LoadingLevel`, panics iff an empty batch arrives; otherwise loads a scene from the batch and requests `LoadingPhysics`; nothing happens without packets or outside `LoadingLevel` |
| ClientWorld.OnlyLastSceneLoaded | client/src/world/mod.rs:24 | only the last `SpawnScene` packet of a batch is loaded |
| ClientPlayer.SnapshotMap | client/src/player/mod.rs:64 | the snapshot map has exactly the snapshot's ids, each mapped to one of its entries with that id |
| ClientPlayer.LastEntryWins | client/src/player/mod.rs:64 | when ids repeat, the last entry with an id is the one kept |
| ClientPlayer.SurvivorsFacts | client/src/player/mod.rs:66-87 | the kept players are the mirrored ones still in the snapshot, with distinct ids, refreshed from it |
| ClientPlayer.FirstOfIdSurvives | client/src/player/mod.rs:66-82 | the first mirrored entity of an id still in the snapshot is kept, refreshed |
| ClientPlayer.Diff | client/src/player/mod.rs:66-87 | the loop keeps and refreshes the surviving players and leaves exactly the snapshot entries with no mirrored entity |
| ClientPlayer.SpawnRemaining | client/src/player/mod.rs:91-106 | spawns one entity per remaining snapshot entry, with fresh entity handles, marked as the local player iff it has the client's id |
| ClientPlayer.Mirror.UpdatePlayers | client/src/player/mod.rs:43-108 | panics iff an empty batch arrives; without packets nothing changes; otherwise the mirror is reconciled with the last packet's snapshot |
| ClientPlayer.ReconciledMirror | client/src/player/mod.rs:59-106 | after reconciling, the mirror holds exactly the snapshot's ids, each once, with the snapshot's translation and scale; newcomers are the local player iff their id is the client's |
| ClientPlayer.SurvivorsOfSynced | client/src/player/mod.rs:66-82 | a mirror that already matches the snapshot is kept whole |
| ClientPlayer.ReconcileIdempotent | client/src/player/mod.rs:59-106 | applying the same snapshot twice changes nothing the second time |
| Sync.MirrorFollowsServer | server/src/player/mod.rs:114-127 | once the client applies the server's broadcast, it mirrors exactly the server's player ids, each with the translation and scale of a server player with that id |

## Left out

- Floating point: the older 2D game's `f32` coordinates are integers (LDtk pixel values), and the newer game's vectors are reals used only for equality. Normalisation, speed and frame time are the parameter `velocity`.
- The 32-bit `Local<u32>` collider counter and the `i32` coordinate arithmetic are unbounded integers; neither can wrap within the model's reach.
- `meshes.get(mesh).unwrap()` in the collider loaders: each mesh entity carries what `Collider::from_bevy_mesh` yields, and the mesh asset is taken to be loaded.
- `level_query.single()` in `cache_world` and the `level_query.get(..)`/`ldtk_levels.get(..)` unwraps in `load_entities`: each spawn and portal entity carries its parent level's record.
- `received_all(..).unwrap()` / `received(..).unwrap()`: the transport's receive calls are taken to succeed, and their results are parameters.
- The portal-aware `crate::player::handle_move` the older server imports (src/player/server.rs:11) comes from a later revision of src/player/mod.rs than the two-argument `handle_move` modelled by `LegacyPlayer.HandleMove`, and is not part of this model: it is an oracle returning the new portal flag, translation and optional level change.
- LegacyPlayerServer.PlayerWorld.HandlePlayerMove: requires the transport to give distinct addresses distinct ids. Velocity changes made by the move routine are not modelled.
- LegacyPlayerServer.PlayerWorld.AcceptNewPlayer: requires the transport's connection list to map distinct addresses to distinct ids.
- LegacyServer.InitServer: the older `crate::common::util::validate_results` (src/common/util.rs is not part of this model) is taken to behave like the newer `validate_register_results`: true iff every result is `Ok`, with one log line per error.
- The random level pick (`rand::thread_rng`) is the parameter `chooseLevel`.
- Collision geometry in `players_move`: the witness points, the flipped normal and the "bump up" computation only print. Each collision is modelled as its count.
- ServerPlayer.PlayerTable.PlayersMove: the `global_transforms.get(..).unwrap()` calls for the controller and each collider (server/src/player/mod.rs:67-69 and :94) are taken to succeed, because controller and collider entities carry a `GlobalTransform`. Their panics are not among the outcomes.
- `set_player_rotation`, `look_to`, `NoFrustumCulling`, debug colliders, rendering, camera, lighting, the keep-alive interval and the transport configuration.
- The `Players` packet's fourth transform element (the rotation's x) is dropped from the snapshot.
- The client's `PLAYER_MODEL_HANDLE_IDS[handle_id]` index is not checked. The server only sends handle 0, which `ServerPlayer.SpawnPlayer` shows is valid.
- Panics abort the game process: the model reports them as an outcome, and on a panic the contracts say nothing about the state. Writes and sends made before the panic in the same system have already happened.
- client/src/networking and the `JoiningServer` → `LoadingLevel` transition are not part of this model.
- `spawn_wall_colliders` and `loaded_world` are commented out of the older server's schedule and are not modelled.
- The older `spawn_scene` (scheduled on entering `LoadedWorld`) is left out: it only spawns the hidden island scene whose mesh entities `LegacyWorld.Tst` takes as input.
- Record versions differ between files: the older `Map` has no `world_coords` field and the older `ServerPlayer` has no `was_in_portal`, although the systems use both. The model follows the systems. The newer `ServerPlayer` component declares `{id, addr}` while `spawn_player` builds `ServerPlayer { addr }`; the model keeps the address and takes the id from `PlayerData`.
- Observations stated as properties rather than corrected: the client's collider loader runs only in `LoadingLevel` while `spawn_scene` moves to `LoadingPhysics` (`ClientPhysics.ColliderLoader.LoadColliders`); the server never requests `LoadPhysics`, so its collider loader never runs (`ServerLifecycle.LoadPhysicsNeverEntered`).

## Findings

| source | as written | input that shows it | evidently intended | confidence | as-written member | corrected member |
|---|---|---|---|---|---|---|
| src/world/util.rs:14 | the padding reset compares against the literal `8` | grid size 16, level height 32: padding 16, so LDtk (0, 0) lands at y 48 instead of 32 | reset when the padding equals `grid_size` | not executed | Coordinates.PaddingMissesResetOffGrid8 | Coordinates.IntendedPaddingRoundsUp |
| server/src/player/mod.rs:97 | `Some(mut translation) => translation.z = -10.0` assigns to a copy of the `Vec3` | an airborne controller steered this frame to (1, 0, -1): its translation stays (1, 0, -1) | set the controller's vertical component to -10 | not executed | ServerPlayer.SteeredControllerNeverFalls | ServerPlayer.IntendedGravityFalls |
