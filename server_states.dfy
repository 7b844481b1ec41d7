/** The server's load-phase state machine (server/src/state/mod.rs). */
module ServerStates {

  datatype ServerState = StartUp | LoadWorld | LoadPhysics | Running

  /** Position of a state in the declared load order. */
  function Rank(s: ServerState): nat
  {
    match s
    case StartUp => 0
    case LoadWorld => 1
    case LoadPhysics => 2
    case Running => 3
  }
}
