/** Value types shared by both generations of the game: identifiers, the optional
    value the engine APIs return, and the opaque 3D vectors of the newer workspace. */
module Common {

  datatype Option<T> = None | Some(value: T)

  /** A transport address, e.g. "127.0.0.1:5001". */
  type Addr = string

  /** The iid of an LDtk level (a zone of the older 2D game). */
  type LevelIid = string

  /** The id the transport assigns to a connected client (a `u32` in the source). */
  type PlayerId = nat

  /** An ECS entity handle. */
  type EntityId = nat

  /** A `Vec3` of the newer workspace. The model never computes with its components:
      it only copies vectors around and writes the two constants below. */
  datatype Vec3 = Vec3(x: real, y: real, z: real)

  /** `Vec3::ZERO`. */
  const Zero: Vec3 := Vec3(0.0, 0.0, 0.0)

  /** The fixed downward "gravity" translation `Vec3::new(0.0, 0.0, -10.0)`. */
  const Fall: Vec3 := Vec3(0.0, 0.0, -10.0)

  /** The last element of a non-empty sequence (Rust's `last().unwrap()`). */
  function Last<T>(s: seq<T>): (r: T)
    requires s != []
    ensures r in s
  {
    s[|s| - 1]
  }
}
