/** Values shared by the server and the client models: optional values (Java `null`,
    TypeScript `undefined`), the symbolic directions, tile positions and 32-bit integers. */
module Common {

  /** A value that may be absent: Java `null` or TypeScript `undefined`. */
  datatype Option<+T> = None | Some(value: T)

  /** The directions of the game's `Direction` enum. `NoDir` is the enum constant
      `NONE`; a Java `null` direction is `None` of an `Option<Direction>`. */
  datatype Direction =
    | Up | Down | Left | Right
    | UpLeft | UpRight | DownLeft | DownRight
    | NoDir

  /** A tile coordinate (`TilePosition` on the server, `{x, z}` on the client). */
  datatype Pos = Pos(x: int, y: int)

  /** What an entity walks towards (the server's `GoalAction`). */
  datatype GoalAction = Attack | Talk | Trade

  const INT_MAX: int := 0x7fff_ffff
  const INT_MIN: int := -0x8000_0000

  predicate IsInt32(v: int) {
    INT_MIN <= v <= INT_MAX
  }

  /** Java's `int` arithmetic: the mathematical value brought into the 32-bit range by
      whole turns of 2^32. */
  function Wrap32(v: int): (r: int)
    ensures IsInt32(r)
    ensures IsInt32(v) ==> r == v
    decreases if v > INT_MAX then v - INT_MAX else if v < INT_MIN then INT_MIN - v else 0
  {
    if v > INT_MAX then Wrap32(v - 0x1_0000_0000)
    else if v < INT_MIN then Wrap32(v + 0x1_0000_0000)
    else v
  }

  /** Wrapping changes a value by a whole number of turns of 2^32. */
  lemma {:induction false} Wrap32Congruent(v: int)
    ensures (Wrap32(v) - v) % 0x1_0000_0000 == 0
    decreases if v > INT_MAX then v - INT_MAX else if v < INT_MIN then INT_MIN - v else 0
  {
    if v > INT_MAX {
      Wrap32Congruent(v - 0x1_0000_0000);
    } else if v < INT_MIN {
      Wrap32Congruent(v + 0x1_0000_0000);
    }
  }

  function Abs(v: int): (r: nat)
    ensures r == v || r == -v
  {
    if v < 0 then -v else v
  }

  function Min(a: int, b: int): (r: int)
    ensures r <= a && r <= b && (r == a || r == b)
  {
    if a < b then a else b
  }

  function Max(a: int, b: int): (r: int)
    ensures r >= a && r >= b && (r == a || r == b)
  {
    if a < b then b else a
  }
}
