/** LDtk level coordinates to map coordinates (src/world/util.rs).

    LDtk counts y downwards from the top of a level, the game counts it upwards from the
    bottom. A level whose pixel height is not a multiple of the grid size is padded at the
    top, so the flip uses the height rounded up to the next multiple of the grid size. */
module Coordinates {

  function Abs(a: int): nat
  {
    if a < 0 then -a else a
  }

  /** Rust's `/` on `i32`: division truncated toward zero. */
  function Quot(a: int, b: int): int
    requires b != 0
  {
    if a >= 0 then a / b else -((-a) / b)
  }

  /** Rust's `%` on `i32`: the remainder left by `Quot`, so it takes the sign of the
      dividend (Dafny's own `%` is Euclidean and never negative). */
  function Rem(a: int, b: int): (r: int)
    requires b != 0
    ensures a == b * Quot(a, b) + r
    ensures Abs(r) < Abs(b)
    ensures a >= 0 ==> r >= 0
    ensures a < 0 ==> r <= 0
  {
    if a >= 0 then a % b else -((-a) % b)
  }

  /** A multiple of a positive `g` leaves Euclidean remainder 0. */
  lemma MultipleModZero(g: int, k: int)
    requires g > 0
    ensures (g * k) % g == 0
  {
    var x := g * k;
    var q, r := x / g, x % g;
    assert x == g * q + r;
    assert g * (k - q) == r;
    if k - q >= 1 {
      assert false;
    } else if k - q <= -1 {
      assert false;
    }
  }

  /** The padding added above a level of height `levelHeight`, as written: the reset to 0
      compares against the literal 8 rather than against `gridSize`. */
  function YPadding(gridSize: int, levelHeight: int): int
    requires gridSize != 0
  {
    var padding := gridSize - Rem(levelHeight, gridSize);
    if padding == 8 then 0 else padding
  }

  /** `ldtk_to_map_coordinates`, as written. */
  function LdtkToMapCoordinates(gridSize: int, ldtk: (int, int), levelHeight: int): (r: (int, int))
    requires gridSize != 0
    ensures r.0 == ldtk.0
  {
    (ldtk.0, levelHeight + YPadding(gridSize, levelHeight) - ldtk.1)
  }

  /** With the game's grid size 8 and a non-negative height, the padding is
      `(8 - H mod 8) mod 8`: it lies in 0..7 and pads the height to a multiple of 8. */
  lemma PaddingOnGrid8(levelHeight: int)
    requires levelHeight >= 0
    ensures YPadding(8, levelHeight) == (8 - levelHeight % 8) % 8
    ensures 0 <= YPadding(8, levelHeight) < 8
    ensures (levelHeight + YPadding(8, levelHeight)) % 8 == 0
  {
  }

  /** The as-written reset misses every other grid size: a height that is already a
      multiple of `gridSize` is padded by a whole extra cell instead of by nothing. */
  lemma PaddingMissesResetOffGrid8(gridSize: int, levelHeight: int)
    requires gridSize != 0 && gridSize != 8
    requires Rem(levelHeight, gridSize) == 0
    ensures YPadding(gridSize, levelHeight) == gridSize
  {
  }

  /** A concrete instance: grid 16, height 32 gets padding 16, so y = 0 lands at 48
      rather than at the level's top edge 32. */
  lemma PaddingOffGrid8Example()
    ensures YPadding(16, 32) == 16
    ensures LdtkToMapCoordinates(16, (0, 0), 32) == (0, 48)
  {
  }

  /** The converted y is strictly decreasing in the LDtk y, and the LDtk top edge y = 0
      maps to the padded height. */
  lemma YFlipReversesOrder(gridSize: int, levelHeight: int, x: int, y1: int, y2: int)
    requires gridSize != 0
    requires y1 < y2
    ensures LdtkToMapCoordinates(gridSize, (x, y1), levelHeight).1 > LdtkToMapCoordinates(gridSize, (x, y2), levelHeight).1
    ensures LdtkToMapCoordinates(gridSize, (x, 0), levelHeight).1 == levelHeight + YPadding(gridSize, levelHeight)
  {
  }

  /** Flipping twice with the same grid size and height gives back the original point. */
  lemma YFlipInvolutive(gridSize: int, levelHeight: int, p: (int, int))
    requires gridSize != 0
    ensures LdtkToMapCoordinates(gridSize, LdtkToMapCoordinates(gridSize, p, levelHeight), levelHeight) == p
  {
  }

  /** Grid 8, height 100, y 10: padding 4, converted y 94. */
  lemma WorkedExample(x: int)
    ensures YPadding(8, 100) == 4
    ensures LdtkToMapCoordinates(8, (x, 10), 100) == (x, 94)
  {
  }

  /** The padding as evidently intended: reset when it equals a whole grid cell. */
  function YPaddingIntended(gridSize: int, levelHeight: int): int
    requires gridSize != 0
  {
    var padding := gridSize - Rem(levelHeight, gridSize);
    if padding == gridSize then 0 else padding
  }

  /** The intended padding rounds every non-negative height up to the nearest multiple
      of any positive grid size. */
  lemma IntendedPaddingRoundsUp(gridSize: int, levelHeight: int)
    requires gridSize > 0 && levelHeight >= 0
    ensures 0 <= YPaddingIntended(gridSize, levelHeight) < gridSize
    ensures (levelHeight + YPaddingIntended(gridSize, levelHeight)) % gridSize == 0
  {
    var q, r := levelHeight / gridSize, levelHeight % gridSize;
    assert Rem(levelHeight, gridSize) == r;
    assert levelHeight == gridSize * q + r;
    if r != 0 {
      assert levelHeight + (gridSize - r) == gridSize * (q + 1);
      MultipleModZero(gridSize, q + 1);
    } else {
      MultipleModZero(gridSize, q);
    }
  }

  /** The coordinate conversion with the intended padding. */
  function MapCoordinates(gridSize: int, ldtk: (int, int), levelHeight: int): (r: (int, int))
    requires gridSize != 0
    ensures r.0 == ldtk.0
    ensures gridSize == 8 ==> r == LdtkToMapCoordinates(gridSize, ldtk, levelHeight)
  {
    (ldtk.0, levelHeight + YPaddingIntended(gridSize, levelHeight) - ldtk.1)
  }
}
