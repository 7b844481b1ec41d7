/** The older server's player systems (src/player/server.rs): admitting and dropping
    players against the transport's connection list, sending each level's positions to
    the players in that level, and applying the latest move of each client. */
module LegacyPlayerServer {
  import opened Common
  import opened LegacyCommon
  import opened LegacyWorld
  import opened LegacyServer

  /** A server-side player entity: its `ServerPlayer` fields, its transform's translation,
      its `Position` and its `WorldComponent` level. */
  datatype ServerPlayer = ServerPlayer(addr: Addr, wasInPortal: bool, translation: (int, int, int),
                                       position: Position, level: LevelIid)

  /** What the portal-aware `handle_move` does to one player: it may set `was_in_portal`,
      move the transform, and may name a level to change to. */
  datatype MoveEffect = MoveEffect(wasInPortal: bool, translation: (int, int, int), change: Option<LevelIid>)

  /** The portal-aware `handle_move`, whose body is not part of this model. */
  type PortalMove = (Direction, PlayerId, ServerPlayer) -> MoveEffect

  /** A player's position relative to its level. */
  datatype PlayerPosition = PlayerPosition(id: PlayerId, localPos: (int, int))

  /** The packets these systems send. */
  datatype Message =
    | SpawnAck(id: PlayerId, levelIid: LevelIid)
    | UpdatePlayerPositions(positions: seq<PlayerPosition>)
    | ChangeLevel(levelIid: LevelIid)

  /** An index into `LevelIids`: the range of the random level pick. */
  type LevelIndex = i: nat | i < 6

  /** `spawn_player`: a player at `position`, drawn at depth 10, not in a portal. */
  function SpawnPlayer(addr: Addr, position: Position, level: LevelIid): (p: ServerPlayer)
    ensures p.addr == addr && p.position == position && p.level == level && !p.wasInPortal
    ensures p.translation == (position.x, position.y, 10)
  {
    ServerPlayer(addr, false, (position.x, position.y, 10), position, level)
  }

  /** The level a newcomer with this id is placed in. */
  function ChosenLevel(chooseLevel: PlayerId -> LevelIndex, id: PlayerId): LevelIid
  {
    LevelIids[chooseLevel(id)]
  }

  /** The level a newcomer is placed in exists in the world. */
  predicate Placeable(maps: map<LevelIid, MapInfo>, chooseLevel: PlayerId -> LevelIndex, id: PlayerId)
  {
    ChosenLevel(chooseLevel, id) in maps
  }

  /** The player spawned for a newcomer: at its chosen level's spawn point. */
  function Placed(maps: map<LevelIid, MapInfo>, chooseLevel: PlayerId -> LevelIndex, p: (Addr, PlayerId)): ServerPlayer
    requires Placeable(maps, chooseLevel, p.1)
  {
    var level := ChosenLevel(chooseLevel, p.1);
    SpawnPlayer(p.0, maps[level].playerSpawn, level)
  }

  /** The `SpawnAck` sent to a newcomer. */
  function AckOf(chooseLevel: PlayerId -> LevelIndex, p: (Addr, PlayerId)): (Addr, Message)
  {
    (p.0, SpawnAck(p.1, ChosenLevel(chooseLevel, p.1)))
  }

  /** The connection list maps distinct addresses to distinct ids. */
  predicate InjectiveClients(clients: map<Addr, PlayerId>)
  {
    forall a, b | a in clients && b in clients && a != b :: clients[a] != clients[b]
  }

  /** The ids of the players of `players` that are not connected. */
  function Disconnected(players: map<PlayerId, ServerPlayer>, clients: map<Addr, PlayerId>): set<PlayerId>
  {
    set id | id in players && id !in clients.Values
  }

  /** Distinct newcomer addresses carry distinct ids. */
  lemma NewcomerIdsDistinct(newPlayers: seq<(Addr, PlayerId)>, clients: map<Addr, PlayerId>, known: set<PlayerId>, i: int, j: int)
    requires InjectiveClients(clients) && DistinctAddrs(newPlayers)
    requires Elements(newPlayers) == Newcomers(clients, known)
    requires 0 <= i < j < |newPlayers|
    ensures newPlayers[i].1 != newPlayers[j].1
  {
    assert newPlayers[i] in Elements(newPlayers) && newPlayers[j] in Elements(newPlayers);
  }

  /** The players entities of the older server. */
  class PlayerWorld {
    var players: map<PlayerId, ServerPlayer>

    constructor ()
      ensures players == map[]
    {
      players := map[];
    }

    /** The removal loop of `accept_new_player`: the players whose id is not connected. */
    method FindRemovedPlayers(clients: map<Addr, PlayerId>) returns (removed: set<PlayerId>)
      ensures removed == Disconnected(players, clients)
    {
      removed := {};
      var seen: set<PlayerId> := {};
      while seen != players.Keys
        invariant seen <= players.Keys
        invariant removed == set id | id in seen && id !in clients.Values
        decreases |players.Keys - seen|
      {
        var id :| id in players.Keys - seen;
        if id !in clients.Values {
          removed := removed + {id};
        }
        seen := seen + {id};
      }
    }

    /** `handle_player_move`: for each client that sent moves, only its latest direction
        is handed to the portal-aware `handle_move` (`portalMove`), which may update the
        player's portal flag and translation; when it names a new level, `ChangeLevel` is
        sent and the player's level changes only if the send succeeded. A client unknown
        to the transport panics; moves for ids without a player are ignored. */
    method HandlePlayerMove(moves: map<Addr, Option<seq<Direction>>>, clientIdOf: Addr -> Option<PlayerId>,
                            portalMove: PortalMove,
                            sendOk: (Addr, Message) -> bool)
      returns (sent: seq<(Addr, Message)>, panicked: bool)
      requires DistinctClientIds(moves, clientIdOf)
      modifies this
      ensures panicked <==> exists a | a in moves :: Moving(moves, a) && clientIdOf(a).None?
      ensures !panicked ==> players.Keys == old(players).Keys
      ensures !panicked ==> forall id | id in players ::
                players[id].addr == old(players)[id].addr && players[id].position == old(players)[id].position
      ensures !panicked ==> forall a | a in moves && Moving(moves, a) && clientIdOf(a).Some? && clientIdOf(a).value in old(players) ::
                players[clientIdOf(a).value] == PlayerAfterMove(old(players), moves, a, clientIdOf, portalMove, sendOk)
      ensures !panicked ==> forall id | id in players && id !in Movers(moves, clientIdOf, moves.Keys) :: players[id] == old(players)[id]
      ensures !panicked ==> Elements(sent) == ChangeRequests(old(players), moves, clientIdOf, portalMove, moves.Keys)
      ensures !panicked ==> |sent| == |ChangeRequests(old(players), moves, clientIdOf, portalMove, moves.Keys)|
    {
      sent, panicked := [], false;
      if |moves| == 0 {
        return;
      }
      var players0, seen: set<Addr> := players, {};
      while seen != moves.Keys
        invariant players0 == old(players)
        invariant seen <= moves.Keys
        invariant forall a | a in seen :: !(Moving(moves, a) && clientIdOf(a).None?)
        invariant MovedSoFar(old(players), players, moves, clientIdOf, portalMove, sendOk, seen)
        invariant Elements(sent) == ChangeRequests(old(players), moves, clientIdOf, portalMove, seen)
        invariant |sent| == |ChangeRequests(old(players), moves, clientIdOf, portalMove, seen)|
        decreases |moves.Keys - seen|
      {
        var a :| a in moves.Keys - seen;
        if Moving(moves, a) && clientIdOf(a).None? {
          panicked := true;
          return;
        }
        players, sent := MoveClient(players0, players, moves, clientIdOf, portalMove, sendOk, seen, a, sent);
        seen := seen + {a};
      }
    }

    /** `accept_new_player`: spawns every newcomer in a randomly chosen level at that
        level's spawn point and sends it a `SpawnAck`; despawns every player whose id is no
        longer connected. `chooseLevel` is the random pick, `sendOk` the outcome of each
        send. A failed send is only logged (`failed`). */
    method AcceptNewPlayer(clients: map<Addr, PlayerId>, maps: map<LevelIid, MapInfo>,
                           chooseLevel: PlayerId -> LevelIndex, sendOk: (Addr, Message) -> bool)
      returns (acks: seq<(Addr, Message)>, failed: set<Addr>, panicked: bool)
      requires InjectiveClients(clients)
      modifies this
      ensures panicked <==> exists id | id in NewcomerIds(clients, old(players).Keys) :: !Placeable(maps, chooseLevel, id)
      ensures !panicked ==>
                players.Keys == (old(players).Keys - Disconnected(old(players), clients)) + NewcomerIds(clients, old(players).Keys)
      ensures !panicked ==> forall id | id in old(players) && id in players :: players[id] == old(players)[id]
      ensures !panicked ==> forall p | p in Newcomers(clients, old(players).Keys) ::
                p.1 in players && Placeable(maps, chooseLevel, p.1) &&
                players[p.1] == Placed(maps, chooseLevel, p)
      ensures !panicked ==> Elements(acks) == set p | p in Newcomers(clients, old(players).Keys) :: AckOf(chooseLevel, p)
      ensures !panicked ==> |acks| == |Newcomers(clients, old(players).Keys)|
      ensures failed == Undelivered(acks, sendOk)
    {
      var removed := FindRemovedPlayers(clients);
      var newPlayers := FindNewPlayers(clients, players.Keys);
      NewcomerPairsIds(newPlayers, clients, players.Keys);
      forall i, j | 0 <= i < j < |newPlayers|
        ensures newPlayers[i].1 != newPlayers[j].1
      {
        NewcomerIdsDistinct(newPlayers, clients, players.Keys, i, j);
      }
      var spawned;
      spawned, acks, failed, panicked := SpawnNewcomers(newPlayers, maps, chooseLevel, sendOk);
      if panicked {
        var k :| 0 <= k < |newPlayers| && !Placeable(maps, chooseLevel, newPlayers[k].1);
        assert newPlayers[k].1 in IdsOf(newPlayers);
        return;
      }
      NewcomersSpawned(newPlayers, clients, players.Keys, maps, chooseLevel, spawned, acks);
      DistinctAddrsCount(newPlayers);
      players := Respawned(players, removed, spawned);
    }
  }

  /** The grouping loop of `send_player_positions`: per level, the addresses of its
      players and their positions, pairwise in the same order. */
  method GroupByLevel(players: map<PlayerId, ServerPlayer>, maps: map<LevelIid, MapInfo>) returns (groups: map<LevelIid, Group>, panicked: bool)
    ensures panicked <==> Stray(players, maps)
    ensures !panicked ==> groups.Keys == set id | id in players :: players[id].level
    ensures !panicked ==> forall level | level in groups :: GroupOf(players, maps, level, groups[level], players.Keys)
  {
    groups, panicked := map[], false;
    var seen: set<PlayerId> := {};
    while seen != players.Keys
      invariant seen <= players.Keys
      invariant forall id | id in seen :: players[id].level in maps
      invariant groups.Keys == set id | id in seen :: players[id].level
      invariant forall level | level in groups :: GroupOf(players, maps, level, groups[level], seen)
      decreases |players.Keys - seen|
    {
      var id :| id in players.Keys - seen;
      var p := players[id];
      if p.level !in maps {
        panicked := true;
        return;
      }
      var g := if p.level in groups then groups[p.level] else Group([], []);
      GroupStep(players, maps, p.level, g, seen, id);
      groups := groups[p.level := Group(g.addrs + [p.addr], g.positions + [PlayerPosition(id, LocalPos(p, maps))])];
      forall level | level in groups && level != p.level
        ensures GroupOf(players, maps, level, groups[level], seen + {id})
      {
        GroupOtherLevel(players, maps, level, groups[level], seen, id);
      }
      seen := seen + {id};
    }
  }

  /** `send_player_positions` over the player entities `players`: every player's address
      receives the positions of exactly the players of its own level, and every message
      sent is such a message. */
  method SendPlayerPositions(players: map<PlayerId, ServerPlayer>, maps: map<LevelIid, MapInfo>, sendOk: (Addr, Message) -> bool)
    returns (sent: seq<(Addr, Message)>, failed: set<Addr>, panicked: bool)
    ensures panicked <==> Stray(players, maps)
    ensures !panicked ==> forall id | id in players :: Informed(players, maps, id, sent)
    ensures !panicked ==> AllTruthful(players, maps, sent)
    ensures !panicked ==> |sent| == |players|
    ensures failed == Undelivered(sent, sendOk)
  {
    var groups;
    sent, failed := [], {};
    groups, panicked := GroupByLevel(players, maps);
    if panicked {
      return;
    }
    var done: set<LevelIid> := {};
    while done != groups.Keys
      invariant done <= groups.Keys
      invariant AllInformed(players, maps, done, sent) && AllTruthful(players, maps, sent)
      invariant failed == Undelivered(sent, sendOk)
      invariant |sent| == |ResidentsOf(players, done)|
      decreases |groups.Keys - done|
    {
      var level :| level in groups.Keys - done;
      ResidentsOfGrows(players, done, level);
      sent, failed := SendLevel(players, maps, level, groups[level], done, sent, failed, sendOk);
      done := done + {level};
    }
    InformedAll(players, maps, done, sent);
    EveryoneResides(players, done);
  }

  /** One round of the outer send loop: the positions of `level`'s group go to each of its
      addresses, after what was `sent` so far. */
  method SendLevel(players: map<PlayerId, ServerPlayer>, maps: map<LevelIid, MapInfo>, level: LevelIid, g: Group,
                   done: set<LevelIid>, sent: seq<(Addr, Message)>, failed: set<Addr>, sendOk: (Addr, Message) -> bool)
    returns (sent': seq<(Addr, Message)>, failed': set<Addr>)
    requires GroupOf(players, maps, level, g, players.Keys)
    requires AllInformed(players, maps, done, sent) && AllTruthful(players, maps, sent)
    requires failed == Undelivered(sent, sendOk)
    ensures AllInformed(players, maps, done + {level}, sent') && AllTruthful(players, maps, sent')
    ensures |sent'| == |sent| + |Residents(players, level)|
    ensures failed' == Undelivered(sent', sendOk)
  {
    GroupReportsLevel(players, maps, level, g);
    DistinctPositionsCount(g.positions);
    var batch, batchFailed := SendToGroup(g.addrs, UpdatePlayerPositions(g.positions), sendOk);
    BatchFacts(players, maps, level, g, sent, batch);
    InformedGrows(players, maps, done, level, sent, batch);
    UndeliveredConcat(sent, batch, sendOk);
    sent', failed' := sent + batch, failed + batchFailed;
  }

  /** A player's translation relative to its level's world coordinates. */
  function LocalPos(p: ServerPlayer, maps: map<LevelIid, MapInfo>): (int, int)
    requires p.level in maps
  {
    (p.translation.0 - maps[p.level].worldCoords.0, p.translation.1 - maps[p.level].worldCoords.1)
  }

  function PositionIds(positions: seq<PlayerPosition>): set<PlayerId>
  {
    set k | 0 <= k < |positions| :: positions[k].id
  }

  /** One level's entry of the grouping table: the addresses of its players and their
      positions, index by index. */
  datatype Group = Group(addrs: seq<Addr>, positions: seq<PlayerPosition>)

  /** `g` is the group of `level` among the players `seen`. */
  ghost predicate GroupOf(players: map<PlayerId, ServerPlayer>, maps: map<LevelIid, MapInfo>, level: LevelIid, g: Group, seen: set<PlayerId>)
  {
    && |g.addrs| == |g.positions|
    && PositionIds(g.positions) == (set id | id in seen && id in players && players[id].level == level)
    && DistinctPositions(g.positions)
    && GroupEntries(players, maps, level, g)
  }

  /** No player is listed twice. */
  predicate DistinctPositions(positions: seq<PlayerPosition>)
  {
    forall i, j | 0 <= i < j < |positions| :: positions[i].id != positions[j].id
  }

  /** A list without repeated ids has as many ids as entries. */
  lemma {:induction false} DistinctPositionsCount(positions: seq<PlayerPosition>)
    requires DistinctPositions(positions)
    ensures |PositionIds(positions)| == |positions|
  {
    if positions != [] {
      var front := positions[..|positions| - 1];
      var p := positions[|positions| - 1];
      assert positions == front + [p];
      PositionIdsSnoc(front, p);
      DistinctPositionsCount(front);
    }
  }

  /** Appending an entry whose id the prefix lacks adds exactly that id. */
  lemma PositionIdsSnoc(front: seq<PlayerPosition>, p: PlayerPosition)
    requires DistinctPositions(front + [p])
    ensures DistinctPositions(front)
    ensures PositionIds(front + [p]) == PositionIds(front) + {p.id}
    ensures p.id !in PositionIds(front)
  {
    var all := front + [p];
    assert all[|front|] == p;
    forall k | 0 <= k < |front| ensures front[k] == all[k] && front[k].id != p.id {
    }
    forall x | x in PositionIds(front) ensures x in PositionIds(all) {
      var k :| 0 <= k < |front| && front[k].id == x;
      assert all[k] == front[k];
    }
  }

  /** Each entry of `g` is a player of `level` with its address and local position. */
  ghost predicate GroupEntries(players: map<PlayerId, ServerPlayer>, maps: map<LevelIid, MapInfo>, level: LevelIid, g: Group)
    requires |g.addrs| == |g.positions|
  {
    && LocalPositions(players, maps, level, g.positions)
    && forall k | 0 <= k < |g.positions| :: g.positions[k].id in players && g.addrs[k] == players[g.positions[k].id].addr
  }

  /** The table once the queued despawns and spawns are applied. */
  function Respawned(players: map<PlayerId, ServerPlayer>, removed: set<PlayerId>, spawned: map<PlayerId, ServerPlayer>)
    : (r: map<PlayerId, ServerPlayer>)
    ensures r.Keys == (players.Keys - removed) + spawned.Keys
    ensures forall id | id in spawned :: r[id] == spawned[id]
    ensures forall id | id in players && id !in removed && id !in spawned :: r[id] == players[id]
  {
    map id | id in (players.Keys - removed) + spawned.Keys :: if id in spawned then spawned[id] else players[id]
  }

  /** Address `a` sent at least one move this frame. */
  predicate Moving(moves: map<Addr, Option<seq<Direction>>>, a: Addr)
  {
    a in moves && moves[a].Some? && moves[a].value != []
  }

  /** The transport gives distinct addresses distinct ids. */
  predicate DistinctClientIds(moves: map<Addr, Option<seq<Direction>>>, clientIdOf: Addr -> Option<PlayerId>)
  {
    forall a, b | a in moves && b in moves && a != b && clientIdOf(a).Some? :: clientIdOf(a) != clientIdOf(b)
  }

  /** The ids of the moving clients among `seen`. */
  function Movers(moves: map<Addr, Option<seq<Direction>>>, clientIdOf: Addr -> Option<PlayerId>, seen: set<Addr>): set<PlayerId>
  {
    set a | a in seen && Moving(moves, a) && clientIdOf(a).Some? :: clientIdOf(a).value
  }

  /** What `handle_move` does on the latest move of `a`. */
  function Effect(players: map<PlayerId, ServerPlayer>, moves: map<Addr, Option<seq<Direction>>>, a: Addr,
                          clientIdOf: Addr -> Option<PlayerId>, portalMove: PortalMove)
    : MoveEffect
    requires Moving(moves, a) && clientIdOf(a).Some? && clientIdOf(a).value in players
  {
    var id := clientIdOf(a).value;
    portalMove(Last(moves[a].value), id, players[id])
  }

  /** The player after the move of `a`: `handle_move`'s portal flag and translation, and
      the requested level if the `ChangeLevel` send succeeded, its old level otherwise. */
  function PlayerAfterMove(players: map<PlayerId, ServerPlayer>, moves: map<Addr, Option<seq<Direction>>>, a: Addr,
                          clientIdOf: Addr -> Option<PlayerId>, portalMove: PortalMove,
                          sendOk: (Addr, Message) -> bool): ServerPlayer
    requires Moving(moves, a) && clientIdOf(a).Some? && clientIdOf(a).value in players
  {
    var p := players[clientIdOf(a).value];
    var e := Effect(players, moves, a, clientIdOf, portalMove);
    p.(wasInPortal := e.wasInPortal, translation := e.translation,
       level := if e.change.Some? && sendOk(a, ChangeLevel(e.change.value)) then e.change.value else p.level)
  }

  /** The `ChangeLevel` messages the clients among `seen` cause. */
  function ChangeRequests(players: map<PlayerId, ServerPlayer>, moves: map<Addr, Option<seq<Direction>>>,
                          clientIdOf: Addr -> Option<PlayerId>, portalMove: PortalMove,
                          seen: set<Addr>): set<(Addr, Message)>
  {
    set a | a in seen && Moving(moves, a) && clientIdOf(a).Some? && clientIdOf(a).value in players
              && Effect(players, moves, a, clientIdOf, portalMove).change.Some?
          :: (a, ChangeLevel(Effect(players, moves, a, clientIdOf, portalMove).change.value))
  }

  /** The player table after the latest move of `a`: only the mover can change. */
  function AfterMove(players: map<PlayerId, ServerPlayer>, moves: map<Addr, Option<seq<Direction>>>, a: Addr,
                     clientIdOf: Addr -> Option<PlayerId>, portalMove: PortalMove,
                     sendOk: (Addr, Message) -> bool): map<PlayerId, ServerPlayer>
  {
    if Moving(moves, a) && clientIdOf(a).Some? && clientIdOf(a).value in players then
      var id := clientIdOf(a).value;
      players[id := PlayerAfterMove(players, moves, a, clientIdOf, portalMove, sendOk)]
    else players
  }

  /** One client's turn in `handle_player_move`: its player moves and the `ChangeLevel`
      request, if any, is recorded. */
  method MoveClient(players0: map<PlayerId, ServerPlayer>, players: map<PlayerId, ServerPlayer>,
                    moves: map<Addr, Option<seq<Direction>>>, clientIdOf: Addr -> Option<PlayerId>,
                    portalMove: PortalMove, sendOk: (Addr, Message) -> bool,
                    seen: set<Addr>, a: Addr, sent: seq<(Addr, Message)>)
    returns (players': map<PlayerId, ServerPlayer>, sent': seq<(Addr, Message)>)
    requires DistinctClientIds(moves, clientIdOf) && seen <= moves.Keys && a in moves && a !in seen
    requires !(Moving(moves, a) && clientIdOf(a).None?)
    requires MovedSoFar(players0, players, moves, clientIdOf, portalMove, sendOk, seen)
    requires Elements(sent) == ChangeRequests(players0, moves, clientIdOf, portalMove, seen)
    requires |sent| == |ChangeRequests(players0, moves, clientIdOf, portalMove, seen)|
    ensures MovedSoFar(players0, players', moves, clientIdOf, portalMove, sendOk, seen + {a})
    ensures Elements(sent') == ChangeRequests(players0, moves, clientIdOf, portalMove, seen + {a})
    ensures |sent'| == |ChangeRequests(players0, moves, clientIdOf, portalMove, seen + {a})|
  {
    MoveStep(players0, moves, clientIdOf, portalMove, seen, a);
    MovedSoFarStep(players0, players, moves, clientIdOf, portalMove, sendOk, seen, a);
    sent' := sent;
    if Moving(moves, a) && clientIdOf(a).value in players {
      var id := clientIdOf(a).value;
      var change := portalMove(Last(moves[a].value), id, players[id]).change;
      if change.Some? {
        ElementsAppend(sent, (a, ChangeLevel(change.value)));
        assert (a, ChangeLevel(change.value)) !in ChangeRequests(players0, moves, clientIdOf, portalMove, seen);
        sent' := sent + [(a, ChangeLevel(change.value))];
      }
    }
    players' := AfterMove(players, moves, a, clientIdOf, portalMove, sendOk);
  }

  /** `players` is `players0` after the moves of the clients among `seen`. */
  ghost predicate MovedSoFar(players0: map<PlayerId, ServerPlayer>, players: map<PlayerId, ServerPlayer>,
                             moves: map<Addr, Option<seq<Direction>>>, clientIdOf: Addr -> Option<PlayerId>,
                             portalMove: PortalMove,
                             sendOk: (Addr, Message) -> bool, seen: set<Addr>)
  {
    && players.Keys == players0.Keys
    && (forall id | id in players :: players[id].addr == players0[id].addr && players[id].position == players0[id].position)
    && (forall a | a in seen && Moving(moves, a) && clientIdOf(a).Some? && clientIdOf(a).value in players0 ::
          players[clientIdOf(a).value] == PlayerAfterMove(players0, moves, a, clientIdOf, portalMove, sendOk))
    && (forall id | id in players && id !in Movers(moves, clientIdOf, seen) :: players[id] == players0[id])
  }

  lemma MovedSoFarStep(players0: map<PlayerId, ServerPlayer>, players: map<PlayerId, ServerPlayer>,
                       moves: map<Addr, Option<seq<Direction>>>, clientIdOf: Addr -> Option<PlayerId>,
                       portalMove: PortalMove,
                       sendOk: (Addr, Message) -> bool, seen: set<Addr>, a: Addr)
    requires DistinctClientIds(moves, clientIdOf) && seen <= moves.Keys && a in moves && a !in seen
    requires MovedSoFar(players0, players, moves, clientIdOf, portalMove, sendOk, seen)
    ensures MovedSoFar(players0, AfterMove(players, moves, a, clientIdOf, portalMove, sendOk),
                       moves, clientIdOf, portalMove, sendOk, seen + {a})
    ensures Moving(moves, a) && clientIdOf(a).Some? && clientIdOf(a).value in players ==>
              players[clientIdOf(a).value] == players0[clientIdOf(a).value]
  {
    MoveStep(players0, moves, clientIdOf, portalMove, seen, a);
    var next := AfterMove(players, moves, a, clientIdOf, portalMove, sendOk);
    if Moving(moves, a) && clientIdOf(a).Some? && clientIdOf(a).value in players {
      var id := clientIdOf(a).value;
      assert players[id] == players0[id];
      forall b | b in seen + {a} && Moving(moves, b) && clientIdOf(b).Some? && clientIdOf(b).value in players0
        ensures next[clientIdOf(b).value] == PlayerAfterMove(players0, moves, b, clientIdOf, portalMove, sendOk)
      {
        if b != a {
          assert clientIdOf(b) != clientIdOf(a);
        }
      }
    }
  }

  lemma MoveStep(players: map<PlayerId, ServerPlayer>, moves: map<Addr, Option<seq<Direction>>>,
                 clientIdOf: Addr -> Option<PlayerId>, portalMove: PortalMove,
                 seen: set<Addr>, a: Addr)
    requires DistinctClientIds(moves, clientIdOf) && seen <= moves.Keys && a in moves && a !in seen
    ensures Movers(moves, clientIdOf, seen + {a})
            == Movers(moves, clientIdOf, seen) + (if Moving(moves, a) && clientIdOf(a).Some? then {clientIdOf(a).value} else {})
    ensures Moving(moves, a) && clientIdOf(a).Some? ==> clientIdOf(a).value !in Movers(moves, clientIdOf, seen)
    ensures ChangeRequests(players, moves, clientIdOf, portalMove, seen + {a})
            == ChangeRequests(players, moves, clientIdOf, portalMove, seen)
               + (if Moving(moves, a) && clientIdOf(a).Some? && clientIdOf(a).value in players
                     && Effect(players, moves, a, clientIdOf, portalMove).change.Some?
                  then {(a, ChangeLevel(Effect(players, moves, a, clientIdOf, portalMove).change.value))} else {})
  {
  }

  /** The addresses whose send failed. */
  function Undelivered(sent: seq<(Addr, Message)>, sendOk: (Addr, Message) -> bool): set<Addr>
  {
    set k | 0 <= k < |sent| && !sendOk(sent[k].0, sent[k].1) :: sent[k].0
  }

  lemma UndeliveredAppend(sent: seq<(Addr, Message)>, x: (Addr, Message), sendOk: (Addr, Message) -> bool)
    ensures Undelivered(sent + [x], sendOk) == Undelivered(sent, sendOk) + (if sendOk(x.0, x.1) then {} else {x.0})
  {
    var t := sent + [x];
    assert t[|sent|] == x;
    forall a | a in Undelivered(sent, sendOk)
      ensures a in Undelivered(t, sendOk)
    {
      var k :| 0 <= k < |sent| && !sendOk(sent[k].0, sent[k].1) && sent[k].0 == a;
      assert t[k] == sent[k];
    }
  }

  /** The spawn loop of `accept_new_player`: per newcomer, pick its level, spawn it at that
      level's spawn point (panicking on a level the world lacks) and send its `SpawnAck`. */
  method SpawnNewcomers(newPlayers: seq<(Addr, PlayerId)>, maps: map<LevelIid, MapInfo>,
                        chooseLevel: PlayerId -> LevelIndex, sendOk: (Addr, Message) -> bool)
    returns (spawned: map<PlayerId, ServerPlayer>, acks: seq<(Addr, Message)>, failed: set<Addr>, panicked: bool)
    requires forall i, j | 0 <= i < j < |newPlayers| :: newPlayers[i].1 != newPlayers[j].1
    ensures panicked <==> exists k | 0 <= k < |newPlayers| :: !Placeable(maps, chooseLevel, newPlayers[k].1)
    ensures !panicked ==> spawned.Keys == IdsOf(newPlayers)
    ensures !panicked ==> forall k | 0 <= k < |newPlayers| ::
              Placeable(maps, chooseLevel, newPlayers[k].1) && spawned[newPlayers[k].1] == Placed(maps, chooseLevel, newPlayers[k])
    ensures !panicked ==> |acks| == |newPlayers| && forall k | 0 <= k < |acks| :: acks[k] == AckOf(chooseLevel, newPlayers[k])
    ensures failed == Undelivered(acks, sendOk)
  {
    spawned, acks, failed, panicked := map[], [], {}, false;
    var i := 0;
    while i < |newPlayers|
      invariant 0 <= i <= |newPlayers|
      invariant spawned.Keys == IdsOf(newPlayers[..i])
      invariant forall k | 0 <= k < i ::
                  Placeable(maps, chooseLevel, newPlayers[k].1) && spawned[newPlayers[k].1] == Placed(maps, chooseLevel, newPlayers[k])
      invariant |acks| == i && forall k | 0 <= k < i :: acks[k] == AckOf(chooseLevel, newPlayers[k])
      invariant failed == Undelivered(acks, sendOk)
    {
      var (addr, id) := newPlayers[i];
      var level := ChosenLevel(chooseLevel, id);
      if level !in maps {
        panicked := true;
        return;
      }
      IdsOfPrefix(newPlayers, i);
      spawned := spawned[id := Placed(maps, chooseLevel, newPlayers[i])];
      var ack := SpawnAck(id, level);
      UndeliveredAppend(acks, (addr, ack), sendOk);
      acks := acks + [(addr, ack)];
      if !sendOk(addr, ack) {
        failed := failed + {addr};
      }
      i := i + 1;
    }
    assert newPlayers[..i] == newPlayers;
  }

  /** What the spawn loop did, restated over the newcomers of the connection list. */
  lemma NewcomersSpawned(newPlayers: seq<(Addr, PlayerId)>, clients: map<Addr, PlayerId>, known: set<PlayerId>,
                         maps: map<LevelIid, MapInfo>, chooseLevel: PlayerId -> LevelIndex,
                         spawned: map<PlayerId, ServerPlayer>, acks: seq<(Addr, Message)>)
    requires Elements(newPlayers) == Newcomers(clients, known)
    requires IdsOf(newPlayers) == NewcomerIds(clients, known)
    requires spawned.Keys == IdsOf(newPlayers)
    requires forall k | 0 <= k < |newPlayers| ::
               Placeable(maps, chooseLevel, newPlayers[k].1) && spawned[newPlayers[k].1] == Placed(maps, chooseLevel, newPlayers[k])
    requires |acks| == |newPlayers| && forall k | 0 <= k < |acks| :: acks[k] == AckOf(chooseLevel, newPlayers[k])
    ensures forall id | id in NewcomerIds(clients, known) :: Placeable(maps, chooseLevel, id) && id !in known
    ensures forall p | p in Newcomers(clients, known) ::
              p.1 in spawned && Placeable(maps, chooseLevel, p.1) &&
              spawned[p.1] == Placed(maps, chooseLevel, p)
    ensures Elements(acks) == set p | p in Newcomers(clients, known) :: AckOf(chooseLevel, p)
  {
    forall id | id in NewcomerIds(clients, known)
      ensures Placeable(maps, chooseLevel, id) && id !in known
    {
      var k :| 0 <= k < |newPlayers| && newPlayers[k].1 == id;
      NewcomerIdsAreUnknown(clients, known, id);
    }
    forall p | p in Newcomers(clients, known)
      ensures p.1 in spawned && Placeable(maps, chooseLevel, p.1)
      ensures spawned[p.1] == Placed(maps, chooseLevel, p)
      ensures AckOf(chooseLevel, p) in Elements(acks)
    {
      var k :| 0 <= k < |newPlayers| && newPlayers[k] == p;
      assert acks[k] == AckOf(chooseLevel, p);
    }
    forall x | x in Elements(acks)
      ensures x in set p | p in Newcomers(clients, known) :: AckOf(chooseLevel, p)
    {
      var k :| 0 <= k < |acks| && acks[k] == x;
      assert newPlayers[k] in Elements(newPlayers);
    }
  }

  /** `id`'s address was sent the positions of exactly the players of its level. */
  ghost predicate Informed(players: map<PlayerId, ServerPlayer>, maps: map<LevelIid, MapInfo>, id: PlayerId, sent: seq<(Addr, Message)>)
    requires id in players
  {
    exists k | 0 <= k < |sent| :: && sent[k].0 == players[id].addr
                                  && sent[k].1.UpdatePlayerPositions?
                                  && ReportsLevel(players, maps, players[id].level, sent[k].1.positions)
  }

  /** Every player of the levels `levels` was informed. */
  ghost predicate AllInformed(players: map<PlayerId, ServerPlayer>, maps: map<LevelIid, MapInfo>, levels: set<LevelIid>, sent: seq<(Addr, Message)>)
  {
    forall id | id in players && players[id].level in levels :: Informed(players, maps, id, sent)
  }

  lemma InformedGrows(players: map<PlayerId, ServerPlayer>, maps: map<LevelIid, MapInfo>, done: set<LevelIid>, level: LevelIid,
                      sent: seq<(Addr, Message)>, batch: seq<(Addr, Message)>)
    requires AllInformed(players, maps, done, sent)
    requires forall id | id in players && players[id].level == level :: Informed(players, maps, id, sent + batch)
    requires forall id | id in players && Informed(players, maps, id, sent) :: Informed(players, maps, id, sent + batch)
    ensures AllInformed(players, maps, done + {level}, sent + batch)
  {
  }

  lemma InformedAll(players: map<PlayerId, ServerPlayer>, maps: map<LevelIid, MapInfo>, levels: set<LevelIid>, sent: seq<(Addr, Message)>)
    requires AllInformed(players, maps, levels, sent)
    requires levels == set id | id in players :: players[id].level
    ensures forall id | id in players :: Informed(players, maps, id, sent)
  {
    forall id | id in players
      ensures Informed(players, maps, id, sent)
    {
      assert players[id].level in levels;
    }
  }

  ghost predicate AllTruthful(players: map<PlayerId, ServerPlayer>, maps: map<LevelIid, MapInfo>, sent: seq<(Addr, Message)>)
  {
    forall k | 0 <= k < |sent| :: Truthful(players, maps, sent[k])
  }

  /** A message sent to a player's address reports exactly the players of its level. */
  ghost predicate Truthful(players: map<PlayerId, ServerPlayer>, maps: map<LevelIid, MapInfo>, m: (Addr, Message))
  {
    && m.1.UpdatePlayerPositions?
    && exists id | id in players :: m.0 == players[id].addr && ReportsLevel(players, maps, players[id].level, m.1.positions)
  }

  /** The innermost send loop: `msg` to every address in turn. */
  method SendToGroup(addrs: seq<Addr>, msg: Message, sendOk: (Addr, Message) -> bool)
    returns (sent: seq<(Addr, Message)>, failed: set<Addr>)
    ensures |sent| == |addrs| && forall k | 0 <= k < |sent| :: sent[k] == (addrs[k], msg)
    ensures failed == Undelivered(sent, sendOk)
  {
    sent, failed := [], {};
    var j := 0;
    while j < |addrs|
      invariant 0 <= j <= |addrs|
      invariant |sent| == j && forall k | 0 <= k < j :: sent[k] == (addrs[k], msg)
      invariant failed == Undelivered(sent, sendOk)
    {
      UndeliveredAppend(sent, (addrs[j], msg), sendOk);
      sent := sent + [(addrs[j], msg)];
      if !sendOk(addrs[j], msg) {
        failed := failed + {addrs[j]};
      }
      j := j + 1;
    }
  }

  lemma UndeliveredConcat(a: seq<(Addr, Message)>, b: seq<(Addr, Message)>, sendOk: (Addr, Message) -> bool)
    ensures Undelivered(a + b, sendOk) == Undelivered(a, sendOk) + Undelivered(b, sendOk)
  {
    var t := a + b;
    forall x | x in Undelivered(a, sendOk)
      ensures x in Undelivered(t, sendOk)
    {
      var k :| 0 <= k < |a| && !sendOk(a[k].0, a[k].1) && a[k].0 == x;
      assert t[k] == a[k];
    }
    forall x | x in Undelivered(b, sendOk)
      ensures x in Undelivered(t, sendOk)
    {
      var k :| 0 <= k < |b| && !sendOk(b[k].0, b[k].1) && b[k].0 == x;
      assert t[|a| + k] == b[k];
    }
  }

  /** Sending a level's group extends what was sent truthfully and informs that level. */
  lemma BatchFacts(players: map<PlayerId, ServerPlayer>, maps: map<LevelIid, MapInfo>, level: LevelIid, g: Group,
                   sent: seq<(Addr, Message)>, batch: seq<(Addr, Message)>)
    requires |g.addrs| == |g.positions| && GroupEntries(players, maps, level, g)
    requires ReportsLevel(players, maps, level, g.positions)
    requires |batch| == |g.addrs| && forall k | 0 <= k < |batch| :: batch[k] == (g.addrs[k], UpdatePlayerPositions(g.positions))
    requires AllTruthful(players, maps, sent)
    ensures AllTruthful(players, maps, sent + batch)
    ensures forall id | id in players && players[id].level == level :: Informed(players, maps, id, sent + batch)
    ensures forall id | id in players && Informed(players, maps, id, sent) :: Informed(players, maps, id, sent + batch)
  {
    forall k | 0 <= k < |batch|
      ensures Truthful(players, maps, batch[k])
    {
      var id := g.positions[k].id;
      assert batch[k].0 == players[id].addr && players[id].level == level;
    }
    forall k | 0 <= k < |sent + batch|
      ensures Truthful(players, maps, (sent + batch)[k])
    {
      if k < |sent| {
        assert (sent + batch)[k] == sent[k];
      } else {
        assert (sent + batch)[k] == batch[k - |sent|];
      }
    }
    forall id | id in players && players[id].level == level
      ensures Informed(players, maps, id, sent + batch)
    {
      assert id in PositionIds(g.positions);
      var m :| 0 <= m < |g.positions| && g.positions[m].id == id;
      assert (sent + batch)[|sent| + m] == batch[m];
    }
    forall id | id in players && Informed(players, maps, id, sent)
      ensures Informed(players, maps, id, sent + batch)
    {
      var k :| 0 <= k < |sent| && sent[k].0 == players[id].addr && sent[k].1.UpdatePlayerPositions?
                                && ReportsLevel(players, maps, players[id].level, sent[k].1.positions);
      assert (sent + batch)[k] == sent[k];
    }
  }

  /** The ids of the players in `level`. */
  function Residents(players: map<PlayerId, ServerPlayer>, level: LevelIid): set<PlayerId>
  {
    set id | id in players && players[id].level == level
  }

  /** The players living in any of `levels`. */
  function ResidentsOf(players: map<PlayerId, ServerPlayer>, levels: set<LevelIid>): set<PlayerId>
  {
    set id | id in players && players[id].level in levels
  }

  /** Every player lives in one of the occupied levels. */
  lemma EveryoneResides(players: map<PlayerId, ServerPlayer>, levels: set<LevelIid>)
    requires levels == set id | id in players :: players[id].level
    ensures |ResidentsOf(players, levels)| == |players|
  {
    assert ResidentsOf(players, levels) == players.Keys;
  }

  /** Adding a level not yet counted adds exactly its residents. */
  lemma ResidentsOfGrows(players: map<PlayerId, ServerPlayer>, levels: set<LevelIid>, level: LevelIid)
    requires level !in levels
    ensures |ResidentsOf(players, levels + {level})| == |ResidentsOf(players, levels)| + |Residents(players, level)|
  {
    assert ResidentsOf(players, levels + {level}) == ResidentsOf(players, levels) + Residents(players, level);
    assert ResidentsOf(players, levels) !! Residents(players, level);
  }

  /** Some player lives in a level the world does not have. */
  predicate Stray(players: map<PlayerId, ServerPlayer>, maps: map<LevelIid, MapInfo>)
  {
    exists id | id in players :: players[id].level !in maps
  }

  /** `positions` are exactly the players of `level`, each relative to that level. */
  ghost predicate ReportsLevel(players: map<PlayerId, ServerPlayer>, maps: map<LevelIid, MapInfo>, level: LevelIid, positions: seq<PlayerPosition>)
  {
    && PositionIds(positions) == Residents(players, level)
    && DistinctPositions(positions)
    && LocalPositions(players, maps, level, positions)
  }

  /** Each entry is a player of `level` at its position relative to that level. */
  ghost predicate LocalPositions(players: map<PlayerId, ServerPlayer>, maps: map<LevelIid, MapInfo>, level: LevelIid, positions: seq<PlayerPosition>)
  {
    forall k | 0 <= k < |positions| ::
      && positions[k].id in players
      && players[positions[k].id].level == level && level in maps
      && positions[k].localPos == LocalPos(players[positions[k].id], maps)
  }

  lemma GroupStep(players: map<PlayerId, ServerPlayer>, maps: map<LevelIid, MapInfo>, level: LevelIid, g: Group, seen: set<PlayerId>, id: PlayerId)
    requires GroupOf(players, maps, level, g, seen)
    requires id in players && id !in seen && players[id].level == level && level in maps
    ensures GroupOf(players, maps, level, Group(g.addrs + [players[id].addr], g.positions + [PlayerPosition(id, LocalPos(players[id], maps))]), seen + {id})
  {
    var ps := g.positions + [PlayerPosition(id, LocalPos(players[id], maps))];
    assert ps[|g.positions|].id == id;
    forall x | x in PositionIds(g.positions)
      ensures x in PositionIds(ps)
    {
      var k :| 0 <= k < |g.positions| && g.positions[k].id == x;
      assert ps[k] == g.positions[k];
    }
    assert PositionIds(ps) == PositionIds(g.positions) + {id};
    forall k | 0 <= k < |g.positions| ensures ps[k].id != id {
      assert g.positions[k].id in PositionIds(g.positions);
    }
  }

  lemma GroupOtherLevel(players: map<PlayerId, ServerPlayer>, maps: map<LevelIid, MapInfo>, level: LevelIid, g: Group, seen: set<PlayerId>, id: PlayerId)
    requires GroupOf(players, maps, level, g, seen)
    requires id in players && players[id].level != level
    ensures GroupOf(players, maps, level, g, seen + {id})
  {
    assert (set x | x in seen + {id} && x in players && players[x].level == level)
        == (set x | x in seen && x in players && players[x].level == level);
  }

  lemma GroupReportsLevel(players: map<PlayerId, ServerPlayer>, maps: map<LevelIid, MapInfo>, level: LevelIid, g: Group)
    requires GroupOf(players, maps, level, g, players.Keys)
    ensures ReportsLevel(players, maps, level, g.positions)
  {
    assert (set id | id in players.Keys && id in players && players[id].level == level) == Residents(players, level);
  }
}
