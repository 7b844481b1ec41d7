/** The client's player mirror (client/src/player/mod.rs, `update_players`): the newest
    `Players` snapshot is diffed against the player entities the client shows. Players in
    both are updated, players only in the mirror are despawned, and players only in the
    snapshot are spawned, the client's own one tagged `Me`. */
module ClientPlayer {
  import opened Common
  import opened Packets

  /** A mirrored player entity: `PlayerData { id, handle_id }`, the translation and scale of
      its `Transform`, and whether it carries the `Me` marker. */
  datatype MirrorPlayer = MirrorPlayer(entity: EntityId, id: PlayerId, handleId: nat, translation: Vec3, scale: real, me: bool)

  /** The ids of some snapshot entries. */
  function SnapshotIds(players: seq<SnapshotPlayer>): set<PlayerId>
  {
    set k | 0 <= k < |players| :: players[k].id
  }

  /** The `HashMap` collected from a snapshot: id to entry, a later entry with the same
      id replacing an earlier one. */
  function SnapshotMap(players: seq<SnapshotPlayer>): (m: map<PlayerId, SnapshotPlayer>)
    ensures m.Keys == SnapshotIds(players)
    ensures forall id | id in m :: m[id].id == id && m[id] in players
  {
    if players == [] then map[]
    else
      var front := players[..|players| - 1];
      var m := SnapshotMap(front);
      assert SnapshotIds(players) == SnapshotIds(front) + {Last(players).id} by {
        forall id | id in SnapshotIds(front) ensures id in SnapshotIds(players) {
          var k :| 0 <= k < |front| && front[k].id == id;
          assert players[k] == front[k];
        }
      }
      m[Last(players).id := Last(players)]
  }

  /** The map keeps the last entry of each id. */
  lemma {:induction false} LastEntryWins(players: seq<SnapshotPlayer>, k: int)
    requires 0 <= k < |players|
    requires forall j | k < j < |players| :: players[j].id != players[k].id
    ensures SnapshotMap(players)[players[k].id] == players[k]
  {
    if k < |players| - 1 {
      var front := players[..|players| - 1];
      assert front[k] == players[k];
      LastEntryWins(front, k);
    }
  }

  /** The ids of some mirror entities. */
  function Ids(mirror: seq<MirrorPlayer>): set<PlayerId>
  {
    set k | 0 <= k < |mirror| :: mirror[k].id
  }

  lemma IdsAppend(mirror: seq<MirrorPlayer>, p: MirrorPlayer)
    ensures Ids(mirror + [p]) == Ids(mirror) + {p.id}
  {
    var next := mirror + [p];
    assert next[|mirror|] == p;
    forall id | id in Ids(mirror)
      ensures id in Ids(next)
    {
      var k :| 0 <= k < |mirror| && mirror[k].id == id;
      assert next[k] == mirror[k];
    }
  }

  lemma NonEmptyHasId(mirror: seq<MirrorPlayer>)
    ensures |mirror| > 0 ==> mirror[0].id in Ids(mirror)
  {
  }

  /** No two entities share an id. */
  predicate DistinctIds(mirror: seq<MirrorPlayer>)
  {
    forall i, j | 0 <= i < j < |mirror| :: mirror[i].id != mirror[j].id
  }

  /** A surviving entity takes its translation and scale from the snapshot; its entity,
      model and `Me` marker stay. */
  function Refreshed(p: MirrorPlayer, s: SnapshotPlayer): MirrorPlayer
  {
    p.(translation := s.translation, scale := s.scale)
  }

  /** The entities that survive a snapshot, refreshed, in query order: those whose id is
      in the snapshot, and of several with the same id only the first, because the
      snapshot entry is removed from the map when it is matched. */
  function Survivors(mirror: seq<MirrorPlayer>, snap: map<PlayerId, SnapshotPlayer>): seq<MirrorPlayer>
  {
    if mirror == [] then []
    else
      var front := mirror[..|mirror| - 1];
      var p := Last(mirror);
      Survivors(front, snap) + (if p.id in snap && p.id !in Ids(front) then [Refreshed(p, snap[p.id])] else [])
  }

  /** Every entity has an id of the snapshot and that entry's translation and scale. */
  predicate CarriesSnapshot(mirror: seq<MirrorPlayer>, snap: map<PlayerId, SnapshotPlayer>)
  {
    forall k | 0 <= k < |mirror| ::
      mirror[k].id in snap && mirror[k].translation == snap[mirror[k].id].translation && mirror[k].scale == snap[mirror[k].id].scale
  }

  /** The survivors are exactly the mirrored ids the snapshot still holds, each once, with
      the snapshot's translation and scale. */
  lemma {:induction false} SurvivorsFacts(mirror: seq<MirrorPlayer>, snap: map<PlayerId, SnapshotPlayer>)
    ensures Ids(Survivors(mirror, snap)) == Ids(mirror) * snap.Keys
    ensures DistinctIds(Survivors(mirror, snap))
    ensures CarriesSnapshot(Survivors(mirror, snap), snap)
  {
    if mirror != [] {
      var front := mirror[..|mirror| - 1];
      var p := Last(mirror);
      SurvivorsFacts(front, snap);
      IdsAppend(front, p);
      assert mirror == front + [p];
      var s := Survivors(front, snap);
      if p.id in snap && p.id !in Ids(front) {
        assert Survivors(mirror, snap) == s + [Refreshed(p, snap[p.id])];
        IdsAppend(s, Refreshed(p, snap[p.id]));
      } else {
        assert Survivors(mirror, snap) == s;
      }
    }
  }

  /** The first entity with a given id survives; every later one with that id is
      despawned. */
  lemma {:induction false} FirstOfIdSurvives(mirror: seq<MirrorPlayer>, snap: map<PlayerId, SnapshotPlayer>, i: int)
    requires 0 <= i < |mirror| && mirror[i].id in snap
    requires forall j | 0 <= j < i :: mirror[j].id != mirror[i].id
    ensures Refreshed(mirror[i], snap[mirror[i].id]) in Survivors(mirror, snap)
  {
    var front := mirror[..|mirror| - 1];
    if i < |mirror| - 1 {
      assert front[i] == mirror[i];
      FirstOfIdSurvives(front, snap, i);
    }
  }

  /** The entity spawned for a snapshot entry the mirror lacks. */
  function Newcomer(entity: EntityId, s: SnapshotPlayer, clientId: PlayerId): MirrorPlayer
  {
    MirrorPlayer(entity, s.id, s.handleId, s.translation, s.scale, s.id == clientId)
  }

  /** `spawned` are newcomers for distinct snapshot entries, entity handles counted up
      from `entity0`. */
  ghost predicate SpawnedFrom(spawned: seq<MirrorPlayer>, snap: map<PlayerId, SnapshotPlayer>, clientId: PlayerId, entity0: EntityId)
  {
    && DistinctIds(spawned)
    && forall k | 0 <= k < |spawned| ::
         spawned[k].id in snap && spawned[k] == Newcomer(entity0 + k, snap[spawned[k].id], clientId)
  }

  /** `after` is the mirror once `snap` is applied to `mirror`: the survivors in query
      order, then one newcomer for every snapshot id the mirror lacked. */
  ghost predicate Reconciles(mirror: seq<MirrorPlayer>, after: seq<MirrorPlayer>, snap: map<PlayerId, SnapshotPlayer>,
                             clientId: PlayerId, entity0: EntityId)
  {
    var kept := Survivors(mirror, snap);
    && |kept| <= |after|
    && after[..|kept|] == kept
    && SpawnedFrom(after[|kept|..], snap, clientId, entity0)
    && Ids(after[|kept|..]) == snap.Keys - Ids(mirror)
  }

  lemma IdsConcat(a: seq<MirrorPlayer>, b: seq<MirrorPlayer>)
    ensures Ids(a + b) == Ids(a) + Ids(b)
  {
    var t := a + b;
    forall id | id in Ids(a) ensures id in Ids(t) {
      var k :| 0 <= k < |a| && a[k].id == id;
      assert t[k] == a[k];
    }
    forall id | id in Ids(b) ensures id in Ids(t) {
      var k :| 0 <= k < |b| && b[k].id == id;
      assert t[|a| + k] == b[k];
    }
  }

  lemma DistinctConcat(a: seq<MirrorPlayer>, b: seq<MirrorPlayer>)
    requires DistinctIds(a) && DistinctIds(b) && Ids(a) !! Ids(b)
    ensures DistinctIds(a + b)
  {
    var t := a + b;
    forall i, j | 0 <= i < j < |t|
      ensures t[i].id != t[j].id
    {
      if j < |a| {
        assert t[i] == a[i] && t[j] == a[j];
      } else if i >= |a| {
        assert t[i] == b[i - |a|] && t[j] == b[j - |a|];
      } else {
        assert t[i] == a[i] && t[j] == b[j - |a|];
        assert t[i].id in Ids(a) && t[j].id in Ids(b);
      }
    }
  }

  lemma CarriesConcat(a: seq<MirrorPlayer>, b: seq<MirrorPlayer>, snap: map<PlayerId, SnapshotPlayer>)
    requires CarriesSnapshot(a, snap) && CarriesSnapshot(b, snap)
    ensures CarriesSnapshot(a + b, snap)
  {
    var t := a + b;
    forall k | 0 <= k < |t|
      ensures t[k].id in snap && t[k].translation == snap[t[k].id].translation && t[k].scale == snap[t[k].id].scale
    {
      if k < |a| {
        assert t[k] == a[k];
      } else {
        assert t[k] == b[k - |a|];
      }
    }
  }

  /** After reconciliation the mirror holds each snapshot id exactly once, with the
      snapshot's translation and scale, and `Me` sits on the client's own entity if that
      entity was spawned now. */
  lemma ReconciledMirror(mirror: seq<MirrorPlayer>, after: seq<MirrorPlayer>, snap: map<PlayerId, SnapshotPlayer>,
                         clientId: PlayerId, entity0: EntityId)
    requires Reconciles(mirror, after, snap, clientId, entity0)
    ensures Ids(after) == snap.Keys
    ensures DistinctIds(after)
    ensures CarriesSnapshot(after, snap)
    ensures forall k | |Survivors(mirror, snap)| <= k < |after| :: after[k].me <==> after[k].id == clientId
  {
    var kept := Survivors(mirror, snap);
    var spawned := after[|kept|..];
    SurvivorsFacts(mirror, snap);
    assert after == kept + spawned;
    IdsConcat(kept, spawned);
    DistinctConcat(kept, spawned);
    assert CarriesSnapshot(spawned, snap);
    CarriesConcat(kept, spawned, snap);
  }

  /** A mirror that already holds each of its ids once, with the snapshot's data, is its
      own survivor list. */
  lemma {:induction false} SurvivorsOfSynced(mirror: seq<MirrorPlayer>, snap: map<PlayerId, SnapshotPlayer>)
    requires DistinctIds(mirror)
    requires CarriesSnapshot(mirror, snap)
    ensures Survivors(mirror, snap) == mirror
  {
    if mirror != [] {
      var front := mirror[..|mirror| - 1];
      var p := Last(mirror);
      SurvivorsOfSynced(front, snap);
      assert mirror == front + [p];
    }
  }

  /** Applying the same snapshot twice gives the same mirror as applying it once: every
      entity survives unchanged and nothing new is spawned. */
  lemma ReconcileIdempotent(m0: seq<MirrorPlayer>, m1: seq<MirrorPlayer>, m2: seq<MirrorPlayer>,
                            snap: map<PlayerId, SnapshotPlayer>, clientId: PlayerId, e0: EntityId, e1: EntityId)
    requires Reconciles(m0, m1, snap, clientId, e0)
    requires Reconciles(m1, m2, snap, clientId, e1)
    ensures m2 == m1
  {
    ReconciledMirror(m0, m1, snap, clientId, e0);
    SurvivorsOfSynced(m1, snap);
    assert m2[..|m1|] == m1;
    var spawned := m2[|m1|..];
    assert Ids(spawned) == {};
    NonEmptyHasId(spawned);
    assert m2 == m2[..|m1|] + spawned;
  }

  /** The client's mirrored player entities, in query order. */
  class Mirror {
    var players: seq<MirrorPlayer>
    /** The next entity handle `Commands::spawn` hands out. */
    var nextEntity: EntityId

    constructor ()
      ensures players == [] && nextEntity == 0
    {
      players := [];
      nextEntity := 0;
    }

    /** `update_players`; `received` holds the `Players` packets of this frame, `None` when
        there were none. An empty batch panics on the index of its last packet. */
    method UpdatePlayers(received: Option<seq<seq<SnapshotPlayer>>>, clientId: PlayerId) returns (panicked: bool)
      modifies this
      ensures panicked <==> received == Some([])
      ensures received.None? || panicked ==> players == old(players) && nextEntity == old(nextEntity)
      ensures received.Some? && received.value != [] ==>
                && Reconciles(old(players), players, SnapshotMap(Last(received.value)), clientId, old(nextEntity))
                && nextEntity == old(nextEntity) + (|players| - |Survivors(old(players), SnapshotMap(Last(received.value)))|)
    {
      panicked := false;
      if received.None? {
        return;
      }
      if received.value == [] {
        panicked := true;
        return;
      }
      var snap := SnapshotMap(Last(received.value));
      var kept, remaining := Diff(players, snap);
      var spawned, next := SpawnRemaining(remaining, snap, clientId, nextEntity);
      assert (kept + spawned)[..|kept|] == kept;
      assert (kept + spawned)[|kept|..] == spawned;
      players, nextEntity := kept + spawned, next;
    }
  }

  /** The loop of `update_players` over the mirror: refresh the entities the snapshot map
      still holds (removing their entry), despawn the others. */
  method Diff(mirror: seq<MirrorPlayer>, snap: map<PlayerId, SnapshotPlayer>)
    returns (kept: seq<MirrorPlayer>, remaining: map<PlayerId, SnapshotPlayer>)
    ensures kept == Survivors(mirror, snap)
    ensures remaining.Keys == snap.Keys - Ids(mirror)
    ensures forall id | id in remaining :: remaining[id] == snap[id]
  {
    kept, remaining := [], snap;
    var i := 0;
    while i < |mirror|
      invariant 0 <= i <= |mirror|
      invariant kept == Survivors(mirror[..i], snap)
      invariant remaining.Keys == snap.Keys - Ids(mirror[..i])
      invariant forall id | id in remaining :: remaining[id] == snap[id]
    {
      var front := mirror[..i];
      assert mirror[..i + 1] == front + [mirror[i]];
      assert mirror[..i + 1][..i] == front;
      IdsAppend(front, mirror[i]);
      var id := mirror[i].id;
      if id in remaining {
        kept := kept + [Refreshed(mirror[i], remaining[id])];
        remaining := remaining - {id};
      }
      i := i + 1;
    }
    assert mirror[..i] == mirror;
  }

  /** The loop invariant of `SpawnRemaining`: `spawned` holds newcomers for exactly the
      ids of `remaining` no longer `left`, and the entity counter follows them. */
  ghost predicate SpawnedSoFar(remaining: map<PlayerId, SnapshotPlayer>, snap: map<PlayerId, SnapshotPlayer>,
                               clientId: PlayerId, entity0: EntityId, left: map<PlayerId, SnapshotPlayer>,
                               spawned: seq<MirrorPlayer>, nextEntity: EntityId)
  {
    && left.Keys <= remaining.Keys && left.Keys <= snap.Keys
    && (forall id | id in left :: left[id] == snap[id])
    && SpawnedFrom(spawned, snap, clientId, entity0)
    && Ids(spawned) == remaining.Keys - left.Keys
    && nextEntity == entity0 + |spawned|
  }

  /** Spawning the newcomer for one id still `left` keeps `SpawnedSoFar`. */
  lemma SpawnedSoFarStep(remaining: map<PlayerId, SnapshotPlayer>, snap: map<PlayerId, SnapshotPlayer>,
                         clientId: PlayerId, entity0: EntityId, left: map<PlayerId, SnapshotPlayer>,
                         spawned: seq<MirrorPlayer>, nextEntity: EntityId, id: PlayerId)
    requires forall i | i in snap :: snap[i].id == i
    requires SpawnedSoFar(remaining, snap, clientId, entity0, left, spawned, nextEntity)
    requires id in left
    ensures SpawnedSoFar(remaining, snap, clientId, entity0, left - {id},
                         spawned + [Newcomer(nextEntity, left[id], clientId)], nextEntity + 1)
  {
    var p := Newcomer(nextEntity, left[id], clientId);
    var next := spawned + [p];
    IdsAppend(spawned, p);
    forall k | 0 <= k < |spawned|
      ensures spawned[k].id != id
    {
      assert spawned[k].id in Ids(spawned);
    }
    assert forall k | 0 <= k < |spawned| :: next[k] == spawned[k];
  }

  /** The spawning loop of `update_players` over what is left of the snapshot map. */
  method SpawnRemaining(remaining: map<PlayerId, SnapshotPlayer>, snap: map<PlayerId, SnapshotPlayer>,
                        clientId: PlayerId, entity0: EntityId)
    returns (spawned: seq<MirrorPlayer>, nextEntity: EntityId)
    requires remaining.Keys <= snap.Keys
    requires forall id | id in remaining :: remaining[id] == snap[id]
    requires forall id | id in snap :: snap[id].id == id
    ensures SpawnedFrom(spawned, snap, clientId, entity0)
    ensures Ids(spawned) == remaining.Keys
    ensures nextEntity == entity0 + |spawned|
  {
    spawned, nextEntity := [], entity0;
    var left := remaining;
    while left != map[]
      invariant SpawnedSoFar(remaining, snap, clientId, entity0, left, spawned, nextEntity)
      decreases |left|
    {
      var id :| id in left;
      SpawnedSoFarStep(remaining, snap, clientId, entity0, left, spawned, nextEntity, id);
      spawned := spawned + [Newcomer(nextEntity, left[id], clientId)];
      nextEntity := nextEntity + 1;
      left := left - {id};
    }
  }
}
