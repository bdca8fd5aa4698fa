/** The tile-step rules the server's entities share (`Entity`, `Npc`, `Player`): which
    direction a one-tile delta names, which way an entity turns towards a tile, where a
    step in a direction lands, and the adjacency and wander-area tests. */
module Movement {
  import opened Common

  /** The offset of one step in `d`. Only the four orthogonal directions move an entity;
      `moveToNextTile` ignores the diagonals and `NONE`. */
  function StepOffset(d: Direction): (offset: Pos)
    ensures Abs(offset.x) + Abs(offset.y) <= 1
    ensures Abs(offset.x) + Abs(offset.y) == 1 <==> d in {Up, Down, Left, Right}
  {
    match d
    case Up => Pos(0, -1)
    case Down => Pos(0, 1)
    case Left => Pos(-1, 0)
    case Right => Pos(1, 0)
    case _ => Pos(0, 0)
  }

  /** The tile reached from `p` by one step in `d`. */
  function StepFrom(p: Pos, d: Direction): Pos {
    Pos(p.x + StepOffset(d).x, p.y + StepOffset(d).y)
  }

  /** `getDirection`: the direction of a one-tile orthogonal delta; `null` for anything
      else, including no movement and the diagonal steps a path can contain. */
  function GetDirection(dx: int, dy: int): (d: Option<Direction>)
    ensures d.Some? <==> Abs(dx) + Abs(dy) == 1
    ensures d.Some? ==> StepOffset(d.value) == Pos(dx, dy)
  {
    if dx == 0 && dy == 0 then None
    else if dx == 0 && dy == -1 then Some(Up)
    else if dx == 0 && dy == 1 then Some(Down)
    else if dx == -1 && dy == 0 then Some(Left)
    else if dx == 1 && dy == 0 then Some(Right)
    else None
  }

  /** `getDirection` inverts `StepOffset` on the four moving directions. */
  lemma GetDirectionOfStep(d: Direction)
    requires d in {Up, Down, Left, Right}
    ensures GetDirection(StepOffset(d).x, StepOffset(d).y) == Some(d)
  {
  }

  function Manhattan(a: Pos, b: Pos): nat {
    Abs(a.x - b.x) + Abs(a.y - b.y)
  }

  /** `getDirectionTowardsTile`: the x axis decides first; the same tile counts as
      `DOWN`. */
  function DirectionTowardsTile(from: Pos, to: Pos): (d: Direction)
    ensures d in {Up, Down, Left, Right}
    ensures d == Left <==> to.x < from.x
    ensures d == Right <==> to.x > from.x
    ensures d == Up <==> to.x == from.x && to.y < from.y
    ensures d == Down <==> to.x == from.x && to.y >= from.y
  {
    if to.x < from.x then Left
    else if to.x > from.x then Right
    else if to.y < from.y then Up
    else Down
  }

  /** A step towards a different tile always brings the entity one tile closer. */
  lemma StepTowardsTileApproaches(from: Pos, to: Pos)
    requires from != to
    ensures Manhattan(StepFrom(from, DirectionTowardsTile(from, to)), to) + 1 == Manhattan(from, to)
  {
  }

  /** The facing an attacker or an interacting NPC takes towards `to`: like
      `DirectionTowardsTile`, but on the same tile the facing is left as it was. */
  function FacingTowards(from: Pos, to: Pos): (d: Option<Direction>)
    ensures d.None? <==> from == to
    ensures d.Some? ==> d.value == DirectionTowardsTile(from, to)
  {
    if to.x < from.x then Some(Left)
    else if to.x > from.x then Some(Right)
    else if to.y < from.y then Some(Up)
    else if to.y > from.y then Some(Down)
    else None
  }

  /** `isOneStepAwayFromTarget` of players and NPCs. */
  predicate OneStepAway(a: Pos, b: Pos) {
    (Abs(a.x - b.x) == 1 && a.y == b.y) || (Abs(a.y - b.y) == 1 && a.x == b.x)
  }

  /** One step away means orthogonally adjacent: Manhattan distance exactly 1. */
  lemma OneStepAwayIsAdjacent(a: Pos, b: Pos)
    ensures OneStepAway(a, b) <==> Manhattan(a, b) == 1
  {
  }

  /** The tile test of `isTargetTileNotWithinWanderArea`: more than `range` from the
      spawn point on either axis. */
  predicate OutsideWanderArea(target: Pos, origin: Pos, range: int) {
    Abs(target.x - origin.x) > range || Abs(target.y - origin.y) > range
  }

  /** Inside the wander area means inside the square of half-width `range`. */
  lemma WanderAreaIsSquare(target: Pos, origin: Pos, range: int)
    ensures !OutsideWanderArea(target, origin, range) <==>
      origin.x - range <= target.x <= origin.x + range &&
      origin.y - range <= target.y <= origin.y + range
  {
  }

  /** The interaction range test of `Npc.update`: inside the square of half-width `range`
      around the NPC. */
  predicate WithinSquare(center: Pos, p: Pos, range: int) {
    center.x - range <= p.x <= center.x + range && center.y - range <= p.y <= center.y + range
  }
}
