/** The server's collider loader (server/src/physics/mod.rs): each frame in `LoadPhysics`
    it attaches a collider to every mesh that yields one, counts the productive frames in
    its `Local<u32>`, and requests `Running` once two frames have been productive. */
module ServerPhysics {
  import opened Common
  import opened Colliders
  import opened ServerStates

  /** The system's local state. */
  class ColliderLoader {
    /** The `Local<u32>` counter. */
    var counter: nat
    /** Whether each frame the system ran in was productive, oldest first. */
    ghost var history: seq<bool>

    ghost predicate Valid()
      reads this
    {
      counter == CountProductive(history)
    }

    constructor ()
      ensures Valid() && history == [] && counter == 0
    {
      counter := 0;
      history := [];
    }

    /** `load_colliders`; `meshes` is the mesh query with what each mesh yields. */
    method LoadColliders(state: ServerState, meshes: seq<MeshEntity>)
      returns (inserts: seq<(EntityId, Collider)>, next: Option<ServerState>)
      requires Valid()
      modifies this
      ensures Valid()
      ensures state != LoadPhysics ==>
                inserts == [] && next == None && counter == old(counter) && history == old(history)
      ensures state == LoadPhysics ==>
                && inserts == Productive(meshes)
                && history == old(history) + [inserts != []]
                && counter == old(counter) + (if inserts != [] then 1 else 0)
                && (next == Some(Running) <==> counter >= 2)
                && (next != Some(Running) ==> next == None)
    {
      inserts, next := [], None;
      if state != LoadPhysics {
        return;
      }
      var done;
      done, inserts := AttachColliders(meshes);
      ProductiveEmptyIff(meshes);
      if done {
        counter := counter + 1;
      }
      history := history + [done];
      assert history[..|history| - 1] == old(history);
      if counter >= 2 {
        next := Some(Running);
      }
    }
  }

}
