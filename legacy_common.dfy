/** Shared value types of the older 2D game (src/common/mod.rs, src/common/components.rs).
    Positions are LDtk pixel values, kept as integers. */
module LegacyCommon {

  /** A movement direction sent by a client. */
  datatype Direction = Left | Up | Right | Down

  /** The `Position` component. */
  datatype Position = Position(x: int, y: int)
}
