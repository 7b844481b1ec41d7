/** The client's scene loader (client/src/world/mod.rs): in `LoadingLevel` it loads the
    level of the last `SpawnScene` packet received and requests `LoadingPhysics`. */
module ClientWorld {
  import opened Common
  import opened Packets
  import opened ClientStates

  /** What one run of `spawn_scene` does. */
  datatype SceneLoad =
    | SceneLoad(loaded: Option<LevelInfo>, next: Option<ClientState>)
    | ScenePanic   // `last().unwrap()` on an empty batch

  /** `spawn_scene`, which runs only in `LoadingLevel`; `received` holds the levels of the
      `SpawnScene` packets of this frame, `None` when there were none. */
  function SpawnSceneSystem(state: ClientState, received: Option<seq<LevelInfo>>): (r: SceneLoad)
    ensures r.ScenePanic? <==> state == LoadingLevel && received == Some([])
    ensures state != LoadingLevel || received.None? ==> r == SceneLoad(None, None)
    ensures r.SceneLoad? && r.loaded.Some? ==>
              received.Some? && received.value != [] && r.loaded.value == received.value[|received.value| - 1]
    ensures r.SceneLoad? ==> (r.next.Some? <==> r.loaded.Some?)
    ensures r.SceneLoad? && r.next.Some? ==> r.next.value == LoadingPhysics
    ensures state == LoadingLevel && received.Some? && received.value != [] ==> r.SceneLoad? && r.loaded.Some?
  {
    if state != LoadingLevel then SceneLoad(None, None)
    else match received
      case None => SceneLoad(None, None)
      case Some(scenes) =>
        if scenes == [] then ScenePanic
        else SceneLoad(Some(Last(scenes)), Some(LoadingPhysics))
  }

  /** Only the last packet matters: earlier `SpawnScene`s of the same frame are never
      loaded. */
  lemma OnlyLastSceneLoaded(earlier: seq<LevelInfo>, last: LevelInfo)
    ensures SpawnSceneSystem(LoadingLevel, Some(earlier + [last])) == SceneLoad(Some(last), Some(LoadingPhysics))
  {
    assert Last(earlier + [last]) == last;
  }
}
