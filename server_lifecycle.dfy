/** The newer server's load phases put together: the systems that write `NextState` in
    each state (server/src/networking/mod.rs, server/src/world/mod.rs,
    server/src/physics/mod.rs), run frame after frame from `StartUp`. */
module ServerLifecycle {
  import opened Common
  import opened ServerStates
  import opened ServerNetworking
  import opened ServerWorld

  /** The state requested in a frame spent in `state`: `transition_load_world` in
      `StartUp`, `load_world` in `LoadWorld`, `load_colliders` in `LoadPhysics` (its request
      is `physicsNext`), and nothing in `Running`. */
  function Request(state: ServerState, physicsNext: Option<ServerState>): Option<ServerState>
  {
    match state
    case StartUp => TransitionLoadWorld(state)
    case LoadWorld => LoadWorldSystem(state).next
    case LoadPhysics => physicsNext
    case Running => None
  }

  /** The state after a frame: the requested one, or the same one. */
  function Step(state: ServerState, physicsNext: Option<ServerState>): ServerState
  {
    var r := Request(state, physicsNext);
    if r.Some? then r.value else state
  }

  /** The state after `|physics|` frames from `StartUp`; frame `k`'s collider loader would
      request `physics[k]`. */
  function Boot(physics: seq<Option<ServerState>>): ServerState
  {
    if physics == [] then StartUp
    else Step(Boot(physics[..|physics| - 1]), Last(physics))
  }

  /** `LoadPhysics` is never entered, so the server's collider loader never runs: the
      server is in `LoadWorld` after one frame and in `Running` from the second frame on. */
  lemma {:induction false} LoadPhysicsNeverEntered(physics: seq<Option<ServerState>>)
    ensures Boot(physics) != LoadPhysics
    ensures |physics| == 0 ==> Boot(physics) == StartUp
    ensures |physics| == 1 ==> Boot(physics) == LoadWorld
    ensures |physics| >= 2 ==> Boot(physics) == Running
  {
    if physics != [] {
      LoadPhysicsNeverEntered(physics[..|physics| - 1]);
    }
  }
}
