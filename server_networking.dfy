/** The newer server's networking systems (server/src/networking/mod.rs): the start-up
    registration gate, spawning a player for each connecting client, removing players
    that left, and the first state transition. */
module ServerNetworking {
  import opened Common
  import opened Registration
  import opened Packets
  import opened ServerStates
  import opened ServerPlayer

  /** `init_server`: `Connect`, `Disconnect` and `Movement` are registered to be received,
      `ConnectAck`, `SpawnScene` and `Players` to be sent; then the transport is started. */
  method InitServer(connect: RegisterResult, disconnect: RegisterResult, movement: RegisterResult,
                    connectAck: RegisterResult, spawnScene: RegisterResult, players: RegisterResult,
                    transportOk: bool)
    returns (r: StartupOutcome)
    ensures r == Started <==>
              && connect.Registered? && disconnect.Registered? && movement.Registered?
              && connectAck.Registered? && spawnScene.Registered? && players.Registered? && transportOk
    ensures r == ReceivePanic <==> !(connect.Registered? && disconnect.Registered? && movement.Registered?)
    ensures r == SendPanic <==>
              && connect.Registered? && disconnect.Registered? && movement.Registered?
              && !(connectAck.Registered? && spawnScene.Registered? && players.Registered?)
  {
    var receives, _ := ValidateRegisterResults(false, [connect, disconnect, movement]);
    var sends, _ := ValidateRegisterResults(false, [connectAck, spawnScene, players]);
    RegisteredTriple(connect, disconnect, movement);
    RegisteredTriple(connectAck, spawnScene, players);
    r := StartupGate(receives, sends, transportOk);
  }

  lemma RegisteredTriple(a: RegisterResult, b: RegisterResult, c: RegisterResult)
    ensures AllRegistered([a, b, c]) <==> a.Registered? && b.Registered? && c.Registered?
  {
    var s := [a, b, c];
    assert s[0] == a && s[1] == b && s[2] == c;
  }

  /** The level every connecting client is told to load. */
  const BigLevel: LevelInfo := LevelInfo("models/small/big.glb#Scene0", (0.0, 0.0, 0.0, HalfPi), 1.0)

  /** Remote `r` sent at least one `Connect` this frame. */
  predicate Connecting(connects: map<PlayerId, Option<seq<Connect>>>, r: PlayerId)
  {
    r in connects && connects[r].Some? && connects[r].value != []
  }

  /** The connecting remotes among `seen`. */
  function ConnectingAmong(connects: map<PlayerId, Option<seq<Connect>>>, seen: set<PlayerId>): set<PlayerId>
  {
    set r | r in seen && Connecting(connects, r)
  }

  /** Handling connecting remote `r` hits one of its three `unwrap`s: the transport has no
      address for it, or one of its two sends fails. */
  predicate ConnectFails(connects: map<PlayerId, Option<seq<Connect>>>, remoteAddress: PlayerId -> Option<Addr>,
                         sendOk: (PlayerId, ServerMessage) -> bool, r: PlayerId)
  {
    Connecting(connects, r) && (remoteAddress(r).None? || !sendOk(r, ConnectAck(r)) || !sendOk(r, SpawnScene(BigLevel)))
  }

  lemma ConnectingStep(connects: map<PlayerId, Option<seq<Connect>>>, seen: set<PlayerId>, r: PlayerId)
    requires r !in seen
    ensures ConnectingAmong(connects, seen + {r})
            == ConnectingAmong(connects, seen) + (if Connecting(connects, r) then {r} else {})
    ensures Connecting(connects, r) ==> |ConnectingAmong(connects, seen + {r})| == |ConnectingAmong(connects, seen)| + 1
    ensures !Connecting(connects, r) ==> |ConnectingAmong(connects, seen + {r})| == |ConnectingAmong(connects, seen)|
  {
    assert ConnectingAmong(connects, seen + {r})
           == ConnectingAmong(connects, seen) + (if Connecting(connects, r) then {r} else {});
  }

  /** The players spawned for the connected remotes, in order, with entity handles
      counted up from `entity0`. */
  function Spawns(entity0: EntityId, connected: seq<(PlayerId, Addr)>): (r: seq<PlayerEntity>)
    ensures |r| == |connected|
    ensures forall k | 0 <= k < |connected| :: r[k] == SpawnPlayer(entity0 + k, connected[k].1, connected[k].0)
  {
    if connected == [] then []
    else
      var c := Last(connected);
      Spawns(entity0, connected[..|connected| - 1]) + [SpawnPlayer(entity0 + |connected| - 1, c.1, c.0)]
  }

  /** What the connected remotes are sent, in order: each one's `ConnectAck`, carrying its
      own id, immediately followed by its `SpawnScene`. */
  function Greetings(connected: seq<(PlayerId, Addr)>): (r: seq<(PlayerId, ServerMessage)>)
    ensures |r| == 2 * |connected|
    ensures forall k | 0 <= k < |connected| ::
              && r[2 * k] == (connected[k].0, ConnectAck(connected[k].0))
              && r[2 * k + 1] == (connected[k].0, SpawnScene(BigLevel))
  {
    if connected == [] then []
    else
      var r := Last(connected).0;
      Greetings(connected[..|connected| - 1]) + [(r, ConnectAck(r)), (r, SpawnScene(BigLevel))]
  }

  /** The remote ids of a list of connections. */
  function RemoteIds(connected: seq<(PlayerId, Addr)>): set<PlayerId>
  {
    set k | 0 <= k < |connected| :: connected[k].0
  }

  lemma RemoteIdsAppend(connected: seq<(PlayerId, Addr)>, c: (PlayerId, Addr))
    ensures RemoteIds(connected + [c]) == RemoteIds(connected) + {c.0}
  {
    var next := connected + [c];
    assert next[|connected|] == c;
    forall id | id in RemoteIds(connected)
      ensures id in RemoteIds(next)
    {
      var k :| 0 <= k < |connected| && connected[k].0 == id;
      assert next[k] == connected[k];
    }
  }

  /** The loop invariant of `ConnectAll`: no remote among `seen` failed, and `connected`
      lists each connecting remote among `seen` once, with its transport address. */
  ghost predicate ConnectedSoFar(connects: map<PlayerId, Option<seq<Connect>>>, remoteAddress: PlayerId -> Option<Addr>,
                                 sendOk: (PlayerId, ServerMessage) -> bool, seen: set<PlayerId>,
                                 connected: seq<(PlayerId, Addr)>)
  {
    && seen <= connects.Keys
    && (forall r | r in seen :: !ConnectFails(connects, remoteAddress, sendOk, r))
    && RemoteIds(connected) == ConnectingAmong(connects, seen)
    && |connected| == |ConnectingAmong(connects, seen)|
    && (forall k | 0 <= k < |connected| :: remoteAddress(connected[k].0) == Some(connected[k].1))
  }

  lemma ConnectedStep(connects: map<PlayerId, Option<seq<Connect>>>, remoteAddress: PlayerId -> Option<Addr>,
                      sendOk: (PlayerId, ServerMessage) -> bool, seen: set<PlayerId>,
                      connected: seq<(PlayerId, Addr)>, r: PlayerId)
    requires ConnectedSoFar(connects, remoteAddress, sendOk, seen, connected)
    requires r in connects && r !in seen && !ConnectFails(connects, remoteAddress, sendOk, r)
    ensures Connecting(connects, r) ==>
              ConnectedSoFar(connects, remoteAddress, sendOk, seen + {r}, connected + [(r, remoteAddress(r).value)])
    ensures !Connecting(connects, r) ==> ConnectedSoFar(connects, remoteAddress, sendOk, seen + {r}, connected)
  {
    ConnectingStep(connects, seen, r);
    if Connecting(connects, r) {
      var next := connected + [(r, remoteAddress(r).value)];
      RemoteIdsAppend(connected, (r, remoteAddress(r).value));
      assert forall k | 0 <= k < |connected| :: next[k] == connected[k];
    }
  }

  /** The loop of `handle_connects` over the connect packets: the remotes it spawns and
      greets, in the order it visits them, each with its transport address. */
  method ConnectAll(connects: map<PlayerId, Option<seq<Connect>>>, remoteAddress: PlayerId -> Option<Addr>,
                    sendOk: (PlayerId, ServerMessage) -> bool)
    returns (connected: seq<(PlayerId, Addr)>, panicked: bool)
    ensures panicked <==> exists r | r in connects :: ConnectFails(connects, remoteAddress, sendOk, r)
    ensures !panicked ==> RemoteIds(connected) == ConnectingAmong(connects, connects.Keys)
    ensures !panicked ==> |connected| == |ConnectingAmong(connects, connects.Keys)|
    ensures !panicked ==> forall k | 0 <= k < |connected| :: remoteAddress(connected[k].0) == Some(connected[k].1)
  {
    connected, panicked := [], false;
    var seen: set<PlayerId> := {};
    while seen != connects.Keys
      invariant ConnectedSoFar(connects, remoteAddress, sendOk, seen, connected)
      decreases |connects.Keys - seen|
    {
      var r :| r in connects.Keys - seen;
      if connects[r].Some? && connects[r].value != [] {
        if remoteAddress(r).None? {
          panicked := true;
          return;
        }
        if !sendOk(r, ConnectAck(r)) {
          panicked := true;
          return;
        }
        if !sendOk(r, SpawnScene(BigLevel)) {
          panicked := true;
          return;
        }
        ConnectedStep(connects, remoteAddress, sendOk, seen, connected, r);
        connected := connected + [(r, remoteAddress(r).value)];
      } else {
        ConnectedStep(connects, remoteAddress, sendOk, seen, connected, r);
      }
      seen := seen + {r};
    }
  }

  /** `handle_connects`: every remote that sent a `Connect` gets a freshly spawned player
      with its remote id and address, then a `ConnectAck` carrying that id and then the
      `SpawnScene`. The spawns are deferred commands, applied once the loop is over. */
  method HandleConnects(table: PlayerTable, connects: map<PlayerId, Option<seq<Connect>>>,
                        remoteAddress: PlayerId -> Option<Addr>, sendOk: (PlayerId, ServerMessage) -> bool)
    returns (connected: seq<(PlayerId, Addr)>, sent: seq<(PlayerId, ServerMessage)>, panicked: bool)
    modifies table
    ensures panicked <==> exists r | r in connects :: ConnectFails(connects, remoteAddress, sendOk, r)
    ensures !panicked ==> RemoteIds(connected) == ConnectingAmong(connects, connects.Keys)
    ensures !panicked ==> |connected| == |ConnectingAmong(connects, connects.Keys)|
    ensures !panicked ==> forall k | 0 <= k < |connected| :: remoteAddress(connected[k].0) == Some(connected[k].1)
    ensures !panicked ==> table.players == old(table.players) + Spawns(old(table.nextEntity), connected)
    ensures !panicked ==> table.nextEntity == old(table.nextEntity) + |connected|
    ensures !panicked ==> sent == Greetings(connected)
  {
    connected, panicked := ConnectAll(connects, remoteAddress, sendOk);
    sent := [];
    if !panicked {
      table.players := table.players + Spawns(table.nextEntity, connected);
      table.nextEntity := table.nextEntity + |connected|;
      sent := Greetings(connected);
    }
  }

  /** There is no check for an existing player: a remote that already has one and
      connects again ends up with two. */
  lemma ReconnectDuplicates(players: seq<PlayerEntity>, entity0: EntityId, connected: seq<(PlayerId, Addr)>,
                            i: int, k: int)
    requires 0 <= i < |players| && 0 <= k < |connected| && players[i].id == connected[k].0
    ensures var after := players + Spawns(entity0, connected);
            after[i].id == after[|players| + k].id && i < |players| + k
  {
    var after := players + Spawns(entity0, connected);
    assert after[|players| + k] == Spawns(entity0, connected)[k];
  }

  /** Remote `r` sent at least one `Disconnect` this frame. */
  predicate Leaving(leaves: map<PlayerId, Option<seq<Disconnect>>>, r: PlayerId)
  {
    r in leaves && leaves[r].Some? && leaves[r].value != []
  }

  /** The remotes that asked to leave this frame. */
  function Leavers(leaves: map<PlayerId, Option<seq<Disconnect>>>): set<PlayerId>
  {
    set r | r in leaves && Leaving(leaves, r)
  }

  /** The first loop of `handle_leaves`: every leaving remote's connection is closed (a
      failed close is only logged) and its id marked for removal. */
  method MarkLeavers(leaves: map<PlayerId, Option<seq<Disconnect>>>, closeOk: PlayerId -> bool)
    returns (toRemove: set<PlayerId>, closeFailures: set<PlayerId>)
    ensures toRemove == Leavers(leaves)
    ensures closeFailures == set r | r in toRemove && !closeOk(r)
  {
    toRemove, closeFailures := {}, {};
    var seen: set<PlayerId> := {};
    while seen != leaves.Keys
      invariant seen <= leaves.Keys
      invariant toRemove == set r | r in seen && Leaving(leaves, r)
      invariant closeFailures == set r | r in toRemove && !closeOk(r)
      decreases |leaves.Keys - seen|
    {
      var r :| r in leaves.Keys - seen;
      if leaves[r].Some? {
        if leaves[r].value != [] {
          if !closeOk(r) {
            closeFailures := closeFailures + {r};
          }
          toRemove := toRemove + {r};
        }
      }
      seen := seen + {r};
    }
  }

  /** A player stays unless its id was marked for removal or the transport no longer has
      an address for it (a client that did not disconnect gracefully). */
  predicate Stays(p: PlayerEntity, toRemove: set<PlayerId>, connected: PlayerId -> bool)
  {
    p.id !in toRemove && connected(p.id)
  }

  /** The players that stay, in query order. */
  function Kept(players: seq<PlayerEntity>, toRemove: set<PlayerId>, connected: PlayerId -> bool): seq<PlayerEntity>
  {
    if players == [] then []
    else
      Kept(players[..|players| - 1], toRemove, connected)
      + (if Stays(Last(players), toRemove, connected) then [Last(players)] else [])
  }

  /** A player is despawned iff its id was marked or its connection is gone. */
  lemma {:induction false} KeptExactly(players: seq<PlayerEntity>, toRemove: set<PlayerId>,
                                       connected: PlayerId -> bool, p: PlayerEntity)
    ensures p in Kept(players, toRemove, connected) <==> p in players && Stays(p, toRemove, connected)
  {
    if players != [] {
      var front := players[..|players| - 1];
      KeptExactly(front, toRemove, connected, p);
      assert players == front + [Last(players)];
    }
  }

  /** Removal never reorders the players that stay and never grows the table. */
  lemma {:induction false} KeptShrinks(players: seq<PlayerEntity>, toRemove: set<PlayerId>, connected: PlayerId -> bool)
    ensures |Kept(players, toRemove, connected)| <= |players|
    ensures (forall i | 0 <= i < |players| :: Stays(players[i], toRemove, connected)) ==> Kept(players, toRemove, connected) == players
  {
    if players != [] {
      var front := players[..|players| - 1];
      KeptShrinks(front, toRemove, connected);
      if forall i | 0 <= i < |players| :: Stays(players[i], toRemove, connected) {
        assert forall i | 0 <= i < |front| :: front[i] == players[i];
        assert players == front + [Last(players)];
      }
    }
  }

  /** `handle_leaves`; `connected` tells whether the transport still has an address for
      an id once the closes are done. */
  method HandleLeaves(table: PlayerTable, leaves: map<PlayerId, Option<seq<Disconnect>>>,
                      closeOk: PlayerId -> bool, connected: PlayerId -> bool)
    returns (closeFailures: set<PlayerId>)
    modifies table
    ensures table.players == Kept(old(table.players), Leavers(leaves), connected)
    ensures table.nextEntity == old(table.nextEntity)
    ensures closeFailures == set r | r in Leavers(leaves) && !closeOk(r)
  {
    var toRemove;
    toRemove, closeFailures := MarkLeavers(leaves, closeOk);
    var players := table.players;
    var kept := [];
    var i := 0;
    while i < |players|
      invariant 0 <= i <= |players|
      invariant kept == Kept(players[..i], toRemove, connected)
    {
      assert players[..i + 1][..i] == players[..i];
      if players[i].id !in toRemove && connected(players[i].id) {
        kept := kept + [players[i]];
      }
      i := i + 1;
    }
    assert players[..i] == players;
    table.players := kept;
  }

  /** `transition_load_world`, which runs only in `StartUp`: it requests `LoadWorld`
      unconditionally. */
  function TransitionLoadWorld(state: ServerState): (next: Option<ServerState>)
    ensures next.Some? <==> state == StartUp
    ensures next.Some? ==> next.value == LoadWorld && Rank(next.value) == Rank(state) + 1
  {
    if state == StartUp then Some(LoadWorld) else None
  }
}
