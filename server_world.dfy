/** The newer server's world loader (server/src/world/mod.rs): in `LoadWorld` it spawns a
    fixed level and immediately requests `Running`. */
module ServerWorld {
  import opened Common
  import opened Packets
  import opened ServerStates

  /** The level `load_world` spawns. */
  const VolcanoIsland: LevelInfo :=
    LevelInfo("models/volcano_island_lowpoly/scene.gltf#Scene0", (0.0, 0.0, 0.0, HalfPi), 0.005)

  /** What one run of a level-loading system does: the level it spawns, if any, and the
      state it requests, if any. */
  datatype LevelLoad = LevelLoad(loaded: Option<LevelInfo>, next: Option<ServerState>)

  /** `load_world`, which runs only in `LoadWorld`: it spawns the same level whatever the
      input and requests `Running` without waiting for the asset, so `LoadPhysics` is
      skipped. */
  function LoadWorldSystem(state: ServerState): (r: LevelLoad)
    ensures r.loaded.Some? <==> state == LoadWorld
    ensures r.next.Some? <==> state == LoadWorld
    ensures r.loaded.Some? ==> r.loaded.value == VolcanoIsland && r.next == Some(Running)
    ensures r.next != Some(LoadPhysics)
  {
    if state == LoadWorld then LevelLoad(Some(VolcanoIsland), Some(Running)) else LevelLoad(None, None)
  }
}
