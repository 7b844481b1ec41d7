/** The mesh-to-collider scan shared by the collider-loading systems (client/src/physics/mod.rs,
    server/src/physics/mod.rs, and `tst` in src/world/server.rs): every mesh entity of the
    query is offered to `Collider::from_bevy_mesh`, and each collider it yields is inserted
    on that entity. */
module Colliders {
  import opened Common

  /** A triangle-mesh collider; its geometry is not modelled. */
  datatype Collider = TriMesh(mesh: nat)

  /** A mesh entity of the query, with what `Collider::from_bevy_mesh` returns for it. */
  datatype MeshEntity = MeshEntity(entity: EntityId, built: Option<Collider>)

  /** The collider insertions of one scan, in query order. */
  function Productive(meshes: seq<MeshEntity>): seq<(EntityId, Collider)>
  {
    if meshes == [] then []
    else
      var m := meshes[|meshes| - 1];
      Productive(meshes[..|meshes| - 1]) + (if m.built.Some? then [(m.entity, m.built.value)] else [])
  }

  /** Exactly the meshes that produced a collider get it, each with its own collider. */
  lemma {:induction false} ProductiveExactly(meshes: seq<MeshEntity>, e: EntityId, c: Collider)
    ensures (e, c) in Productive(meshes) <==> exists i | 0 <= i < |meshes| :: meshes[i] == MeshEntity(e, Some(c))
  {
    if meshes != [] {
      var front := meshes[..|meshes| - 1];
      ProductiveExactly(front, e, c);
      if exists i | 0 <= i < |front| :: front[i] == MeshEntity(e, Some(c)) {
        var i :| 0 <= i < |front| && front[i] == MeshEntity(e, Some(c));
        assert meshes[i] == front[i];
      }
      if exists i | 0 <= i < |meshes| :: meshes[i] == MeshEntity(e, Some(c)) {
        var i :| 0 <= i < |meshes| && meshes[i] == MeshEntity(e, Some(c));
        if i < |front| {
          assert front[i] == meshes[i];
        }
      }
    }
  }

  /** A scan inserts something iff some mesh produced a collider. */
  lemma {:induction false} ProductiveEmptyIff(meshes: seq<MeshEntity>)
    ensures Productive(meshes) != [] <==> exists i | 0 <= i < |meshes| :: meshes[i].built.Some?
  {
    if meshes != [] {
      var front := meshes[..|meshes| - 1];
      ProductiveEmptyIff(front);
      if exists i | 0 <= i < |front| :: front[i].built.Some? {
        var i :| 0 <= i < |front| && front[i].built.Some?;
        assert meshes[i] == front[i];
      }
      if exists i | 0 <= i < |meshes| :: meshes[i].built.Some? {
        var i :| 0 <= i < |meshes| && meshes[i].built.Some?;
        if i < |front| {
          assert front[i] == meshes[i];
        }
      }
    }
  }

  /** The scan loop: `done` is set iff at least one mesh produced a collider, and every
      produced collider is inserted on its own entity. */
  method AttachColliders(meshes: seq<MeshEntity>) returns (done: bool, inserts: seq<(EntityId, Collider)>)
    ensures inserts == Productive(meshes)
    ensures done <==> exists i | 0 <= i < |meshes| :: meshes[i].built.Some?
  {
    done := false;
    inserts := [];
    var i := 0;
    while i < |meshes|
      invariant 0 <= i <= |meshes|
      invariant inserts == Productive(meshes[..i])
      invariant done <==> inserts != []
    {
      assert meshes[..i + 1][..i] == meshes[..i];
      if meshes[i].built.Some? {
        inserts := inserts + [(meshes[i].entity, meshes[i].built.value)];
        done := true;
      }
      i := i + 1;
    }
    assert meshes[..i] == meshes;
    ProductiveEmptyIff(meshes);
  }

  /** How many frames of a history were productive: the value of the `Local<u32>` counter. */
  function CountProductive(history: seq<bool>): nat
  {
    if history == [] then 0
    else CountProductive(history[..|history| - 1]) + (if history[|history| - 1] then 1 else 0)
  }

  /** The counter reaches 2 exactly when two distinct frames were productive, so a single
      productive frame never lets the loader finish. */
  lemma {:induction false} TwoProductiveFrames(history: seq<bool>)
    ensures CountProductive(history) >= 2 <==>
            exists i, j | 0 <= i < j < |history| :: history[i] && history[j]
  {
    if history != [] {
      var front := history[..|history| - 1];
      var n := |history| - 1;
      TwoProductiveFrames(front);
      OneProductiveFrame(front);
      if exists i, j | 0 <= i < j < |front| :: front[i] && front[j] {
        var i, j :| 0 <= i < j < |front| && front[i] && front[j];
        assert history[i] && history[j];
      }
      if CountProductive(front) >= 1 && history[n] {
        var i :| 0 <= i < |front| && front[i];
        assert history[i] && history[n];
      }
      if exists i, j | 0 <= i < j < |history| :: history[i] && history[j] {
        var i, j :| 0 <= i < j < |history| && history[i] && history[j];
        assert front[i];
        if j < n {
          assert front[j];
        }
      }
    }
  }

  /** The counter is positive exactly when some frame was productive. */
  lemma {:induction false} OneProductiveFrame(history: seq<bool>)
    ensures CountProductive(history) >= 1 <==> exists i | 0 <= i < |history| :: history[i]
  {
    if history != [] {
      var front := history[..|history| - 1];
      OneProductiveFrame(front);
      if exists i | 0 <= i < |front| :: front[i] {
        var i :| 0 <= i < |front| && front[i];
        assert history[i];
      }
      if exists i | 0 <= i < |history| :: history[i] {
        var i :| 0 <= i < |history| && history[i];
        if i < |front| {
          assert front[i];
        }
      }
    }
  }
}
