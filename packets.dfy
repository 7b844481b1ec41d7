/** The packets and records of the newer workspace's common crate
    (common/src/networking/server_packets.rs, common/src/networking/client_packets.rs,
    common/src/resource/mod.rs). Float fields are kept as opaque reals. */
module Packets {
  import opened Common

  /** `LevelInfo`: the scene asset, its transform (x, y, z, x-rotation) and scale. */
  datatype LevelInfo = LevelInfo(handleId: string, sceneTransform: (real, real, real, real), scale: real)

  /** One player of a `Players` snapshot. */
  datatype SnapshotPlayer = SnapshotPlayer(id: PlayerId, handleId: nat, translation: Vec3, scale: real)

  /** What the server sends to a client. */
  datatype ServerMessage =
    | ConnectAck(id: PlayerId)
    | SpawnScene(level: LevelInfo)
    | Players(players: seq<SnapshotPlayer>)

  /** A `Movement` packet: a 2D steering vector. */
  datatype Movement = Movement(translation: (real, real))

  /** The `Connect` and `Disconnect` packets carry no data. */
  datatype Connect = Connect
  datatype Disconnect = Disconnect

  /** `std::f32::consts::PI / 2.0`, to `f32` precision. */
  const HalfPi: real := 1.5707963
}
