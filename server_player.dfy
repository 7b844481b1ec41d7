/** The newer server's player systems (server/src/player/mod.rs): steering the kinematic
    controllers from `Movement` packets, the gravity and collision fallbacks on the
    controller's requested translation, the `Players` broadcast, and the spawn defaults. */
module ServerPlayer {
  import opened Common
  import opened Packets

  /** A `Transform`: translation, the x component of the rotation quaternion, and the
      uniform scale. */
  datatype Transform = Transform(translation: Vec3, rotationX: real, scale: real)

  /** What the character controller reported for an entity last physics step. */
  datatype ControllerOutput = ControllerOutput(grounded: bool, collisions: nat)

  /** A server player entity: `ServerPlayer { addr }`, `PlayerData { id, handle_id }`, its
      `Transform`, and the `KinematicCharacterController`'s requested translation. */
  datatype PlayerEntity = PlayerEntity(entity: EntityId, addr: Addr, id: PlayerId, handleId: nat,
                                       transform: Transform, translation: Option<Vec3>)

  /** `PLAYER_MODEL_HANDLE_IDS`, indexed by `handle_id`. */
  const PlayerModelHandles: seq<string> := ["models/amber/Amber.glb", "models/owl/scene.gltf"]

  /** `spawn_player`: model 0, placed at (-10, 0, 100), scaled by 0.05, with no requested
      translation yet. */
  function SpawnPlayer(entity: EntityId, addr: Addr, id: PlayerId): (p: PlayerEntity)
    ensures p.entity == entity && p.addr == addr && p.id == id && p.translation == None
    ensures p.handleId == 0 && p.handleId < |PlayerModelHandles|
    ensures p.transform.translation == Vec3(-10.0, 0.0, 100.0) && p.transform.scale == 0.05
  {
    PlayerEntity(entity, addr, id, 0, Transform(Vec3(-10.0, 0.0, 100.0), 0.0, 0.05), None)
  }

  /** Address `a` sent a `Movement` batch this frame that `players_move` cannot handle: an
      empty batch (`last().unwrap()`) or an address the transport has no id for
      (`get_client_id(..).unwrap()`). */
  predicate BadMove(moves: map<Addr, Option<seq<Movement>>>, clientIdOf: Addr -> Option<PlayerId>, a: Addr)
  {
    a in moves && moves[a].Some? && (moves[a].value == [] || clientIdOf(a).None?)
  }

  /** Address `a` sent movements and has a client id. */
  predicate Steering(moves: map<Addr, Option<seq<Movement>>>, clientIdOf: Addr -> Option<PlayerId>, a: Addr)
  {
    a in moves && moves[a].Some? && moves[a].value != [] && clientIdOf(a).Some?
  }

  /** Controller `i` is the first, in query order, whose address and id both match. */
  predicate FirstMatch(players: seq<PlayerEntity>, i: int, a: Addr, id: PlayerId)
    requires 0 <= i < |players|
  {
    && players[i].addr == a && players[i].id == id
    && forall j | 0 <= j < i :: !(players[j].addr == a && players[j].id == id)
  }

  /** The translation controller `i` requests after the movements of the addresses in
      `seen`: the latest movement's velocity if it is the first controller matching its
      sender, its old translation otherwise. */
  function Steered(players: seq<PlayerEntity>, moves: map<Addr, Option<seq<Movement>>>,
                   clientIdOf: Addr -> Option<PlayerId>, velocity: Movement -> Vec3,
                   seen: set<Addr>, i: int): Option<Vec3>
    requires 0 <= i < |players|
  {
    var a := players[i].addr;
    if a in seen && Steering(moves, clientIdOf, a) && FirstMatch(players, i, a, clientIdOf(a).value)
    then Some(velocity(Last(moves[a].value)))
    else players[i].translation
  }

  /** All controllers after the movements of the addresses in `seen`. */
  ghost predicate SteeredAll(players: seq<PlayerEntity>, steered: seq<PlayerEntity>,
                             moves: map<Addr, Option<seq<Movement>>>, clientIdOf: Addr -> Option<PlayerId>,
                             velocity: Movement -> Vec3, seen: set<Addr>)
  {
    && |steered| == |players|
    && forall i | 0 <= i < |players| ::
         steered[i] == players[i].(translation := Steered(players, moves, clientIdOf, velocity, seen, i))
  }

  /** The controller search of `players_move` for address `a`: the first controller whose
      address matches and whose id equals the sender's client id. The id is looked up (and
      unwrapped) only once a controller's address matches. */
  method FindController(players: seq<PlayerEntity>, a: Addr, clientId: Option<PlayerId>)
    returns (found: Option<nat>, panicked: bool)
    ensures panicked <==> clientId.None? && exists j | 0 <= j < |players| :: players[j].addr == a
    ensures !panicked && clientId.Some? ==>
              (found.Some? <==> exists j | 0 <= j < |players| :: players[j].addr == a && players[j].id == clientId.value)
    ensures !panicked && found.Some? ==>
              clientId.Some? && found.value < |players| && FirstMatch(players, found.value, a, clientId.value)
    ensures clientId.None? ==> found.None?
  {
    found, panicked := None, false;
    var j := 0;
    while j < |players|
      invariant 0 <= j <= |players|
      invariant forall k | 0 <= k < j :: players[k].addr != a || (clientId.Some? && players[k].id != clientId.value)
    {
      if players[j].addr == a {
        if clientId.None? {
          panicked := true;
          return;
        }
        if players[j].id == clientId.value {
          found := Some(j);
          return;
        }
      }
      j := j + 1;
    }
  }

  /** The steering half of `players_move`: every address's latest movement is written to
      the first controller matching it; a sender with no matching controller is only
      logged. Panics on an empty batch or a sender without a client id; the senders
      `handled` before the panic have already steered their controllers. */
  method Steer(players: seq<PlayerEntity>, moves: map<Addr, Option<seq<Movement>>>,
               clientIdOf: Addr -> Option<PlayerId>, velocity: Movement -> Vec3)
    returns (steered: seq<PlayerEntity>, panicked: bool, ghost handled: set<Addr>)
    ensures panicked <==> exists a | a in moves :: BadMove(moves, clientIdOf, a)
    ensures handled <= moves.Keys && SteeredAll(players, steered, moves, clientIdOf, velocity, handled)
    ensures !panicked ==> handled == moves.Keys
    ensures panicked ==> exists a | a in moves && a !in handled :: BadMove(moves, clientIdOf, a)
  {
    steered, panicked := players, false;
    var seen: set<Addr> := {};
    handled := seen;
    while seen != moves.Keys
      invariant seen <= moves.Keys && handled == seen
      invariant forall a | a in seen :: !BadMove(moves, clientIdOf, a)
      invariant SteeredAll(players, steered, moves, clientIdOf, velocity, seen)
      decreases |moves.Keys - seen|
    {
      var a :| a in moves.Keys - seen;
      if moves[a].Some? {
        if moves[a].value == [] {
          panicked := true;
          return;
        }
        var movement := Last(moves[a].value);
        var found, stop := FindController(players, a, clientIdOf(a));
        if stop {
          panicked := true;
          return;
        }
        if found.None? && clientIdOf(a).None? {
          panicked := true;
          return;
        }
        if found.Some? {
          steered := steered[found.value := players[found.value].(translation := Some(velocity(movement)))];
        }
      }
      SteerStep(players, steered, moves, clientIdOf, velocity, seen, a);
      seen := seen + {a};
      handled := seen;
    }
  }

  /** Handling one more address changes only the controller it steers. */
  lemma SteerStep(players: seq<PlayerEntity>, steered: seq<PlayerEntity>,
                  moves: map<Addr, Option<seq<Movement>>>, clientIdOf: Addr -> Option<PlayerId>,
                  velocity: Movement -> Vec3, seen: set<Addr>, a: Addr)
    requires a in moves && a !in seen && |steered| == |players|
    requires forall i | 0 <= i < |players| && players[i].addr != a ::
               steered[i] == players[i].(translation := Steered(players, moves, clientIdOf, velocity, seen, i))
    requires forall i | 0 <= i < |players| && players[i].addr == a ::
               steered[i] == players[i].(translation := Steered(players, moves, clientIdOf, velocity, seen + {a}, i))
    ensures SteeredAll(players, steered, moves, clientIdOf, velocity, seen + {a})
  {
  }

  /** The gravity and collision fallbacks of `players_move` for one controller. A collision
      turns a missing translation into zero; an airborne controller, or one without
      output yet, falls at (0, 0, -10) when it has no translation. An existing translation
      is never changed: the `Some(mut translation)` arms write to a copy. */
  function Gravity(translation: Option<Vec3>, output: Option<ControllerOutput>): (r: Option<Vec3>)
    ensures translation.Some? ==> r == translation
    ensures translation.None? && output.Some? && output.value.collisions > 0 ==> r == Some(Zero)
    ensures translation.None? && (output.None? || (!output.value.grounded && output.value.collisions == 0)) ==> r == Some(Fall)
    ensures r.None? <==> translation.None? && output.Some? && output.value.grounded && output.value.collisions == 0
  {
    match output
    case None => if translation.None? then Some(Fall) else translation
    case Some(o) =>
      var t := if o.collisions > 0 && translation.None? then Some(Zero) else translation;
      if !o.grounded && t.None? then Some(Fall) else t
  }

  /** An airborne controller that was steered this frame keeps its steering vector
      unchanged under the as-written fallbacks, so it never falls while it moves. */
  lemma SteeredControllerNeverFalls(v: Vec3, grounded: bool, collisions: nat)
    requires v.z != -10.0
    ensures Gravity(Some(v), None) == Some(v)
    ensures !grounded ==> Gravity(Some(v), Some(ControllerOutput(grounded, collisions))) == Some(v)
    ensures Gravity(Some(v), None) != GravityIntended(Some(v), None)
  {
  }

  /** The fallbacks as evidently intended: an airborne controller, or one without output
      yet, has the vertical part of its translation set to -10, whether or not it was
      steered this frame. */
  function GravityIntended(translation: Option<Vec3>, output: Option<ControllerOutput>): (r: Option<Vec3>)
  {
    match output
    case None => if translation.None? then Some(Fall) else Some(translation.value.(z := -10.0))
    case Some(o) =>
      var t := if o.collisions > 0 && translation.None? then Some(Zero) else translation;
      if o.grounded then t
      else if t.None? then Some(Fall)
      else Some(t.value.(z := -10.0))
  }

  /** With the intended fallbacks every airborne or output-less controller falls at -10,
      keeps its horizontal steering, and a grounded one is treated as before. */
  lemma IntendedGravityFalls(translation: Option<Vec3>, output: Option<ControllerOutput>)
    ensures var r := GravityIntended(translation, output);
            && (output.None? || !output.value.grounded ==> r.Some? && r.value.z == -10.0)
            && (translation.Some? ==> r.Some? && r.value.x == translation.value.x && r.value.y == translation.value.y)
            && (output.Some? && output.value.grounded ==> r == Gravity(translation, output))
            && (r.None? <==> translation.None? && output.Some? && output.value.grounded && output.value.collisions == 0)
  {
  }

  /** The second loop of `players_move`: the fallbacks as written applied to every
      controller, with `outputs` standing for the `KinematicCharacterControllerOutput`
      query. */
  method ApplyGravity(players: seq<PlayerEntity>, outputs: EntityId -> Option<ControllerOutput>)
    returns (fallen: seq<PlayerEntity>)
    ensures |fallen| == |players|
    ensures forall i | 0 <= i < |players| ::
              fallen[i] == players[i].(translation := Gravity(players[i].translation, outputs(players[i].entity)))
  {
    fallen := players;
    var i := 0;
    while i < |players|
      invariant 0 <= i <= |players| && |fallen| == |players|
      invariant forall k | 0 <= k < i ::
                  fallen[k] == players[k].(translation := Gravity(players[k].translation, outputs(players[k].entity)))
      invariant forall k | i <= k < |players| :: fallen[k] == players[k]
    {
      fallen := fallen[i := players[i].(translation := Gravity(players[i].translation, outputs(players[i].entity)))];
      i := i + 1;
    }
  }

  /** The outcome of `broadcast_players`. */
  datatype Broadcast = Broadcasted(message: ServerMessage) | BroadcastPanic

  /** The snapshot `broadcast_players` builds: one entry per player entity, in query order.
      The fourth transform element the source appends (the rotation's x) is dropped. */
  function Snapshot(players: seq<PlayerEntity>): (r: seq<SnapshotPlayer>)
    ensures |r| == |players|
    ensures forall i | 0 <= i < |players| ::
              r[i] == SnapshotPlayer(players[i].id, players[i].handleId, players[i].transform.translation, players[i].transform.scale)
  {
    if players == [] then []
    else
      var p := Last(players);
      Snapshot(players[..|players| - 1]) + [SnapshotPlayer(p.id, p.handleId, p.transform.translation, p.transform.scale)]
  }

  /** Every player's id appears in the snapshot, and only those ids. */
  lemma SnapshotCoversPlayers(players: seq<PlayerEntity>, id: PlayerId)
    ensures (exists k | 0 <= k < |Snapshot(players)| :: Snapshot(players)[k].id == id)
            <==> exists i | 0 <= i < |players| :: players[i].id == id
  {
    if k :| 0 <= k < |Snapshot(players)| && Snapshot(players)[k].id == id {
      assert players[k].id == id;
    }
    if i :| 0 <= i < |players| && players[i].id == id {
      assert Snapshot(players)[i].id == id;
    }
  }

  /** `broadcast_players`: the `Players` snapshot goes to every client; a failed broadcast
      panics. */
  function BroadcastPlayers(players: seq<PlayerEntity>, broadcastOk: bool): (r: Broadcast)
    ensures r.BroadcastPanic? <==> !broadcastOk
    ensures r.Broadcasted? ==> r.message == Players(Snapshot(players)) && |r.message.players| == |players|
  {
    if broadcastOk then Broadcasted(Players(Snapshot(players))) else BroadcastPanic
  }

  /** The server's player entities, in query order. */
  class PlayerTable {
    var players: seq<PlayerEntity>
    /** The next entity handle `Commands::spawn` hands out. */
    var nextEntity: EntityId

    constructor ()
      ensures players == [] && nextEntity == 0
    {
      players := [];
      nextEntity := 0;
    }

    /** `players_move`: steer, then apply the fallbacks as written; `velocity` stands for the
        normalised, speed- and frame-time-scaled movement vector. On a panic the senders
        `handled` before it have already steered their controllers, and no fallback ran. */
    method PlayersMove(moves: map<Addr, Option<seq<Movement>>>, clientIdOf: Addr -> Option<PlayerId>,
                       velocity: Movement -> Vec3, outputs: EntityId -> Option<ControllerOutput>)
      returns (panicked: bool, ghost handled: set<Addr>)
      modifies this
      ensures panicked <==> exists a | a in moves :: BadMove(moves, clientIdOf, a)
      ensures nextEntity == old(nextEntity)
      ensures panicked ==> handled <= moves.Keys && SteeredAll(old(players), players, moves, clientIdOf, velocity, handled)
      ensures panicked ==> exists a | a in moves && a !in handled :: BadMove(moves, clientIdOf, a)
      ensures !panicked ==> |players| == |old(players)|
      ensures !panicked ==> forall i | 0 <= i < |players| ::
                players[i] == old(players)[i].(translation := Gravity(Steered(old(players), moves, clientIdOf, velocity, moves.Keys, i),
                                                                      outputs(old(players)[i].entity)))
    {
      var steered;
      steered, panicked, handled := Steer(players, moves, clientIdOf, velocity);
      if panicked {
        players := steered;
        return;
      }
      players := ApplyGravity(steered, outputs);
    }
  }

  /** A movement changes at most one controller: two distinct controllers are never both
      the first match for the same sender. */
  lemma OneControllerPerSender(players: seq<PlayerEntity>, i: int, j: int, a: Addr, id: PlayerId)
    requires 0 <= i < |players| && 0 <= j < |players| && i != j
    ensures !(FirstMatch(players, i, a, id) && FirstMatch(players, j, a, id))
  {
    if i > j {
      OneControllerPerSender(players, j, i, a, id);
    }
  }

  /** A sender with no controller matching both its address and its id changes nothing. */
  lemma UnmatchedSenderIgnored(players: seq<PlayerEntity>, moves: map<Addr, Option<seq<Movement>>>,
                               clientIdOf: Addr -> Option<PlayerId>, velocity: Movement -> Vec3, a: Addr)
    requires Steering(moves, clientIdOf, a)
    requires forall j | 0 <= j < |players| :: !(players[j].addr == a && players[j].id == clientIdOf(a).value)
    ensures forall i | 0 <= i < |players| && players[i].addr == a ::
              Steered(players, moves, clientIdOf, velocity, moves.Keys, i) == players[i].translation
  {
  }
}
