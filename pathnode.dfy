/** The server's path-finding node (`PathNode`): a tile with the costs A* keeps for it
    and the node it was reached from. Nodes are equal, and hash alike, by their tile. */
module PathNodes {
  import opened Common

  /** `hashCode`: `31 * x + y` in Java `int` arithmetic. */
  function NodeHash(x: int, y: int): int {
    Wrap32(31 * x + y)
  }

  /** Distinct tiles of a map up to 31 rows high and with columns below 69,000,000 hash
      apart: the hash is then `31 * x + y` itself. */
  lemma NodeHashSeparatesTiles(x: int, y: int, x': int, y': int)
    requires 0 <= x < 69_000_000 && 0 <= y < 31 && 0 <= x' < 69_000_000 && 0 <= y' < 31
    requires NodeHash(x, y) == NodeHash(x', y')
    ensures x == x' && y == y'
  {
    Wrap32Small(31 * x + y);
    Wrap32Small(31 * x' + y');
  }

  /** `Wrap32` leaves a value that fits an `int` alone. */
  lemma Wrap32Small(v: int)
    requires IsInt32(v)
    ensures Wrap32(v) == v
  {
  }

  /** Taller maps collide: the tiles `(0, 31)` and `(1, 0)` hash alike although they
      are different nodes. */
  lemma NodeHashCollides()
    ensures NodeHash(0, 31) == NodeHash(1, 0)
  {
    Wrap32Small(31);
  }

  class PathNode {
    var x: int
    var y: int
    var g: int
    var h: int
    var f: int
    var parent: PathNode?

    /** A node for `(x, y)` reached from `parent`, with all costs 0. */
    constructor(x: int, y: int, parent: PathNode?)
      ensures this.x == x && this.y == y && this.parent == parent
      ensures g == 0 && h == 0 && f == 0
    {
      this.x := x;
      this.y := y;
      this.g := 0;
      this.h := 0;
      this.f := 0;
      this.parent := parent;
    }

    /** `calculateCosts`: the estimate `h` becomes the Manhattan distance to `target`
        (not the octile distance A* itself uses), and `f` the sum `g + h`. */
    method CalculateCosts(target: PathNode)
      modifies this
      ensures h == Abs(old(x) - old(target.x)) + Abs(old(y) - old(target.y)) && f == g + h
      ensures x == old(x) && y == old(y) && g == old(g) && parent == old(parent)
    {
      h := Abs(x - target.x) + Abs(y - target.y);
      f := g + h;
    }

    /** `equals`: the same object, or another node on the same tile. */
    predicate Equals(o: PathNode?)
      reads this, o
      ensures Equals(o) <==> o != null && x == o.x && y == o.y
    {
      if this == o then true
      else if o == null then false
      else x == o.x && y == o.y
    }

    function HashCode(): (r: int)
      reads this
      ensures r == NodeHash(x, y)
    {
      Wrap32(31 * x + y)
    }
  }

  /** `equals` and `hashCode` agree: equal nodes hash alike. */
  lemma EqualNodesHashAlike(a: PathNode, b: PathNode)
    requires a.Equals(b)
    ensures a.HashCode() == b.HashCode()
  {
  }

  /** `equals` is symmetric. */
  lemma EqualsSymmetric(a: PathNode, b: PathNode)
    requires a.Equals(b)
    ensures b.Equals(a)
  {
  }
}
