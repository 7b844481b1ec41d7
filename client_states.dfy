/** The client's load-phase state machine (client/src/state/mod.rs). */
module ClientStates {

  datatype ClientState = JoiningServer | LoadingLevel | LoadingPhysics | Running

  /** Position of a state in the declared load order. */
  function Rank(s: ClientState): nat
  {
    match s
    case JoiningServer => 0
    case LoadingLevel => 1
    case LoadingPhysics => 2
    case Running => 3
  }
}
