/** The newer workspace's player sync end to end: the server's `Players` broadcast
    (server/src/player/mod.rs) applied by the client's mirror (client/src/player/mod.rs). */
module Sync {
  import opened Common
  import opened Packets
  import opened ServerPlayer
  import opened ClientPlayer

  /** The ids of the server's player entities. */
  function ServerIds(server: seq<PlayerEntity>): set<PlayerId>
  {
    set i | 0 <= i < |server| :: server[i].id
  }

  /** Once the client applies the server's broadcast, it mirrors exactly the server's
      player ids, each entity with the translation and scale of a server player with its
      id. */
  lemma {:induction false} MirrorFollowsServer(server: seq<PlayerEntity>, mirror: seq<MirrorPlayer>, after: seq<MirrorPlayer>,
                            clientId: PlayerId, entity0: EntityId)
    requires Reconciles(mirror, after, SnapshotMap(Snapshot(server)), clientId, entity0)
    ensures Ids(after) == ServerIds(server)
    ensures forall k | 0 <= k < |after| :: exists i | 0 <= i < |server| ::
              && server[i].id == after[k].id
              && after[k].translation == server[i].transform.translation
              && after[k].scale == server[i].transform.scale
  {
    var snapshot := Snapshot(server);
    var snap := SnapshotMap(snapshot);
    ReconciledMirror(mirror, after, snap, clientId, entity0);
    assert SnapshotIds(snapshot) == ServerIds(server) by {
      forall id | id in ServerIds(server) ensures id in SnapshotIds(snapshot) {
        var i :| 0 <= i < |server| && server[i].id == id;
        assert snapshot[i].id == id;
      }
    }
    forall k | 0 <= k < |after|
      ensures exists i | 0 <= i < |server| ::
                && server[i].id == after[k].id
                && after[k].translation == server[i].transform.translation
                && after[k].scale == server[i].transform.scale
    {
      var e := snap[after[k].id];
      var i :| 0 <= i < |snapshot| && snapshot[i] == e;
      assert server[i].id == after[k].id;
    }
  }
}
