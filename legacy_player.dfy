/** Player movement and sprite placement of the older game (src/player/mod.rs). */
module LegacyPlayer {
  import opened Common
  import opened LegacyCommon

  /** Where one step in `direction` leads from `p`. */
  function Moved(direction: Direction, p: Position): Position
  {
    match direction
    case Left => p.(x := p.x - 1)
    case Up => p.(y := p.y + 1)
    case Right => p.(x := p.x + 1)
    case Down => p.(y := p.y - 1)
  }

  /** A step changes exactly one coordinate by exactly one unit: x grows only going
      right, shrinks only going left, and likewise y with up and down. */
  lemma MoveIsUnitStep(direction: Direction, p: Position)
    ensures var q := Moved(direction, p);
            && (q.x - p.x) * (q.x - p.x) + (q.y - p.y) * (q.y - p.y) == 1
            && (q.x > p.x <==> direction == Right) && (q.x < p.x <==> direction == Left)
            && (q.y > p.y <==> direction == Up) && (q.y < p.y <==> direction == Down)
  {
  }

  /** Opposite steps cancel. */
  lemma OppositeMovesCancel(p: Position)
    ensures Moved(Right, Moved(Left, p)) == p && Moved(Left, Moved(Right, p)) == p
    ensures Moved(Down, Moved(Up, p)) == p && Moved(Up, Moved(Down, p)) == p
  {
  }

  /** A `Position` component, updated in place. */
  class PositionComponent {
    var x: int
    var y: int

    constructor (p: Position)
      ensures x == p.x && y == p.y
    {
      x, y := p.x, p.y;
    }

    function Value(): Position
      reads this
    {
      Position(x, y)
    }
  }

  /** `handle_move`: one step of the position in `direction`. */
  method HandleMove(direction: Direction, position: PositionComponent)
    modifies position
    ensures position.Value() == Moved(direction, old(position.Value()))
  {
    match direction
    case Left => position.x := position.x - 1;
    case Up => position.y := position.y + 1;
    case Right => position.x := position.x + 1;
    case Down => position.y := position.y - 1;
  }

  /** The `Transform` translation of a sprite. */
  datatype Translation = Translation(x: int, y: int, z: int)

  /** A player sprite: its `Player` id, its `Position` and its `Transform` translation. */
  datatype Sprite = Sprite(id: PlayerId, position: Position, translation: Translation)

  /** The sprite is drawn away from its position. */
  predicate OutOfSync(s: Sprite)
  {
    s.position.x != s.translation.x || s.position.y != s.translation.y
  }

  /** The sprite after `transform_positions` has looked at it. */
  function Synced(s: Sprite): Sprite
  {
    if OutOfSync(s) then s.(translation := Translation(s.position.x, s.position.y, s.translation.z)) else s
  }

  /** After a sync the sprite is drawn at its position with its depth kept, and a second
      sync writes nothing. */
  lemma SyncedAligns(s: Sprite)
    ensures Synced(s).translation == Translation(s.position.x, s.position.y, s.translation.z)
    ensures Synced(s).id == s.id && Synced(s).position == s.position
    ensures !OutOfSync(Synced(s)) && Synced(Synced(s)) == Synced(s)
  {
  }

  /** `transform_positions` over the player sprites: rewrites the translation of each
      sprite that is out of sync, and reports which ones it wrote. */
  method TransformPositions(sprites: array<Sprite>) returns (written: set<nat>)
    modifies sprites
    ensures forall i | 0 <= i < sprites.Length :: sprites[i] == Synced(old(sprites[i]))
    ensures written == set i | 0 <= i < sprites.Length && OutOfSync(old(sprites[i]))
  {
    written := {};
    var i := 0;
    while i < sprites.Length
      invariant 0 <= i <= sprites.Length
      invariant forall k | 0 <= k < i :: sprites[k] == Synced(old(sprites[k]))
      invariant forall k | i <= k < sprites.Length :: sprites[k] == old(sprites[k])
      invariant written == set k | 0 <= k < i && OutOfSync(old(sprites[k]))
    {
      var s := sprites[i];
      if s.position.x != s.translation.x || s.position.y != s.translation.y {
        sprites[i] := s.(translation := Translation(s.position.x, s.position.y, s.translation.z));
        written := written + {i};
      }
      i := i + 1;
    }
  }

  /** `spawn_player`: a sprite with the given id and position, whose translation starts at
      the origin, so it is out of sync exactly when the position is not the origin. */
  function SpawnPlayer(id: PlayerId, position: (int, int)): (s: Sprite)
    ensures s.id == id && s.position == Position(position.0, position.1)
    ensures OutOfSync(s) <==> position != (0, 0)
  {
    Sprite(id, Position(position.0, position.1), Translation(0, 0, 0))
  }
}
