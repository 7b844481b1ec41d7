/** The older server's start-up and player table (src/server/server.rs). */
module LegacyServer {
  import opened Common
  import opened Registration

  /** `init_server`: `Move` is registered to be received, `SpawnPlayer` and
      `UpdatePositions` to be sent; then the transport is started. */
  method InitServer(move: RegisterResult, spawnPlayer: RegisterResult, updatePositions: RegisterResult, transportOk: bool)
    returns (r: StartupOutcome)
    ensures r == Started <==> move.Registered? && spawnPlayer.Registered? && updatePositions.Registered? && transportOk
    ensures r == ReceivePanic <==> !move.Registered?
    ensures r == SendPanic <==> move.Registered? && !(spawnPlayer.Registered? && updatePositions.Registered?)
  {
    var receives, _ := ValidateRegisterResults(false, [move]);
    var sends, _ := ValidateRegisterResults(false, [spawnPlayer, updatePositions]);
    assert !move.Registered? ==> !AllRegistered([move]);
    assert !spawnPlayer.Registered? ==> !AllRegistered([spawnPlayer, updatePositions]);
    assert !updatePositions.Registered? ==> [spawnPlayer, updatePositions][1] == updatePositions;
    r := StartupGate(receives, sends, transportOk);
  }

  /** The newcomers a frame admits: none while the connection count equals the player
      count, otherwise every connection whose id has no player yet. */
  function Newcomers(clients: map<Addr, PlayerId>, known: set<PlayerId>): set<(Addr, PlayerId)>
  {
    if |clients| == |known| then {}
    else set a | a in clients && clients[a] !in known :: (a, clients[a])
  }

  /** The ids of `Newcomers`. */
  function NewcomerIds(clients: map<Addr, PlayerId>, known: set<PlayerId>): set<PlayerId>
  {
    if |clients| == |known| then {}
    else set a | a in clients && clients[a] !in known :: clients[a]
  }

  /** Elements of a sequence, as a set. */
  function Elements<T>(s: seq<T>): set<T>
  {
    set k | 0 <= k < |s| :: s[k]
  }

  /** The ids of a list of `(addr, id)` pairs. */
  function IdsOf(s: seq<(Addr, PlayerId)>): set<PlayerId>
  {
    set k | 0 <= k < |s| :: s[k].1
  }

  lemma IdsOfPrefix(s: seq<(Addr, PlayerId)>, i: nat)
    requires i < |s|
    ensures IdsOf(s[..i + 1]) == IdsOf(s[..i]) + {s[i].1}
  {
    var t := s[..i + 1];
    assert t[i] == s[i];
    forall id | id in IdsOf(s[..i])
      ensures id in IdsOf(t)
    {
      var k :| 0 <= k < i && s[..i][k].1 == id;
      assert t[k] == s[..i][k];
    }
  }

  /** The connections among `seen` whose id is not known. */
  function Unknown(clients: map<Addr, PlayerId>, known: set<PlayerId>, seen: set<Addr>): set<(Addr, PlayerId)>
  {
    set a | a in seen && a in clients && clients[a] !in known :: (a, clients[a])
  }

  lemma UnknownStep(clients: map<Addr, PlayerId>, known: set<PlayerId>, seen: set<Addr>, a: Addr)
    requires a in clients
    ensures Unknown(clients, known, seen + {a})
            == Unknown(clients, known, seen) + (if clients[a] !in known then {(a, clients[a])} else {})
  {
  }

  lemma ElementsAppend<T>(s: seq<T>, x: T)
    ensures Elements(s + [x]) == Elements(s) + {x}
  {
    assert (s + [x])[|s|] == x;
    forall y | y in Elements(s)
      ensures y in Elements(s + [x])
    {
      var k :| 0 <= k < |s| && s[k] == y;
      assert (s + [x])[k] == y;
    }
  }

  /** No address occurs twice. */
  predicate DistinctAddrs(s: seq<(Addr, PlayerId)>)
  {
    forall i, j | 0 <= i < j < |s| :: s[i].0 != s[j].0
  }

  lemma DistinctAddrsAppend(s: seq<(Addr, PlayerId)>, x: (Addr, PlayerId), seen: set<Addr>)
    requires DistinctAddrs(s) && x.0 !in seen
    requires forall k | 0 <= k < |s| :: s[k].0 in seen
    ensures DistinctAddrs(s + [x])
  {
  }

  /** A list of pairs with distinct addresses has as many elements as entries. */
  lemma {:induction false} DistinctAddrsCount(s: seq<(Addr, PlayerId)>)
    requires DistinctAddrs(s)
    ensures |Elements(s)| == |s|
  {
    if s != [] {
      var front := s[..|s| - 1];
      var x := s[|s| - 1];
      assert s == front + [x];
      assert DistinctAddrs(front) by {
        forall i, j | 0 <= i < j < |front| ensures front[i].0 != front[j].0 {
          assert front[i] == s[i] && front[j] == s[j];
        }
      }
      assert x !in Elements(front) by {
        forall k | 0 <= k < |front| ensures front[k] != x {
          assert front[k] == s[k];
        }
      }
      ElementsAppend(front, x);
      DistinctAddrsCount(front);
    }
  }

  /** The `new_players` loop shared by both `accept_new_player`s: collects, in some order,
      each connection whose id is not among the known players, and only when the
      connection count differs from the player count. */
  method FindNewPlayers(clients: map<Addr, PlayerId>, known: set<PlayerId>) returns (newPlayers: seq<(Addr, PlayerId)>)
    ensures Elements(newPlayers) == Newcomers(clients, known)
    ensures DistinctAddrs(newPlayers)
  {
    newPlayers := [];
    if |clients| == |known| {
      return;
    }
    var seen: set<Addr> := {};
    while seen != clients.Keys
      invariant seen <= clients.Keys
      invariant Elements(newPlayers) == Unknown(clients, known, seen)
      invariant forall k | 0 <= k < |newPlayers| :: newPlayers[k].0 in seen
      invariant DistinctAddrs(newPlayers)
      decreases |clients.Keys - seen|
    {
      var a :| a in clients.Keys - seen;
      UnknownStep(clients, known, seen, a);
      if clients[a] !in known {
        ElementsAppend(newPlayers, (a, clients[a]));
        DistinctAddrsAppend(newPlayers, (a, clients[a]), seen);
        newPlayers := newPlayers + [(a, clients[a])];
      }
      seen := seen + {a};
    }
    assert Unknown(clients, known, seen) == Newcomers(clients, known);
  }

  /** The ids of the pairs `FindNewPlayers` returns are exactly `NewcomerIds`. */
  lemma NewcomerPairsIds(newPlayers: seq<(Addr, PlayerId)>, clients: map<Addr, PlayerId>, known: set<PlayerId>)
    requires Elements(newPlayers) == Newcomers(clients, known)
    ensures IdsOf(newPlayers) == NewcomerIds(clients, known)
  {
    forall id | id in NewcomerIds(clients, known)
      ensures id in IdsOf(newPlayers)
    {
      var a :| a in clients && clients[a] !in known && clients[a] == id;
      assert (a, id) in Newcomers(clients, known);
      var k :| 0 <= k < |newPlayers| && newPlayers[k] == (a, id);
    }
    forall id | id in IdsOf(newPlayers)
      ensures id in NewcomerIds(clients, known)
    {
      var k :| 0 <= k < |newPlayers| && newPlayers[k].1 == id;
      assert newPlayers[k] in Elements(newPlayers);
    }
  }

  /** The id of every newcomer is a connected id without a player; past the count gate
      every such id is admitted, and while the counts are equal none is, even a connected
      id that has no player. */
  lemma NewcomerIdsAreUnknown(clients: map<Addr, PlayerId>, known: set<PlayerId>, id: PlayerId)
    ensures id in NewcomerIds(clients, known) ==> id in clients.Values && id !in known
    ensures |clients| != |known| && id in clients.Values && id !in known ==> id in NewcomerIds(clients, known)
    ensures |clients| == |known| ==> id !in NewcomerIds(clients, known)
  {
    if id in NewcomerIds(clients, known) {
      var a :| a in clients && clients[a] !in known && clients[a] == id;
    }
    if |clients| != |known| && id in clients.Values && id !in known {
      var a :| a in clients && clients[a] == id;
    }
  }

  /** The count gate holding back a connected id without a player: one connection and
      one stale player. */
  lemma CountGateExample()
    ensures 1 in map["127.0.0.1:5001" := 1].Values && 1 !in {2}
    ensures NewcomerIds(map["127.0.0.1:5001" := 1], {2}) == {}
  {
    assert map["127.0.0.1:5001" := 1]["127.0.0.1:5001"] == 1;
  }

  /** A player-table entry. */
  datatype Player = Player(position: (int, int))

  /** The `Players` resource. */
  class Players {
    var players: map<PlayerId, Player>

    constructor ()
      ensures players == map[]
    {
      players := map[];
    }

    /** `accept_new_player`: adds a `(0, 0)` entry for every newcomer and leaves every
        existing entry alone. */
    method AcceptNewPlayer(clients: map<Addr, PlayerId>)
      modifies this
      ensures players.Keys == old(players).Keys + NewcomerIds(clients, old(players).Keys)
      ensures forall id | id in old(players) :: players[id] == old(players)[id]
      ensures forall id | id in players && id !in old(players) :: players[id] == Player((0, 0))
    {
      var newPlayers := FindNewPlayers(clients, players.Keys);
      NewcomerPairsIds(newPlayers, clients, players.Keys);
      InsertAtOrigin(newPlayers);
    }

    /** The insertion loop of `accept_new_player`: each listed id gets a `(0, 0)` entry. */
    method InsertAtOrigin(newPlayers: seq<(Addr, PlayerId)>)
      modifies this
      ensures players.Keys == old(players).Keys + IdsOf(newPlayers)
      ensures forall id | id in old(players) && id !in IdsOf(newPlayers) :: players[id] == old(players)[id]
      ensures forall id | id in IdsOf(newPlayers) :: players[id] == Player((0, 0))
    {
      var i := 0;
      while i < |newPlayers|
        invariant 0 <= i <= |newPlayers|
        invariant players.Keys == old(players).Keys + IdsOf(newPlayers[..i])
        invariant forall id | id in old(players) && id !in IdsOf(newPlayers[..i]) :: players[id] == old(players)[id]
        invariant forall id | id in IdsOf(newPlayers[..i]) :: players[id] == Player((0, 0))
      {
        IdsOfPrefix(newPlayers, i);
        players := players[newPlayers[i].1 := Player((0, 0))];
        i := i + 1;
      }
      assert newPlayers[..i] == newPlayers;
    }
  }
}
