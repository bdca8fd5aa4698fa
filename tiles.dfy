/** The server's tile map (`TileManager`): three layers of tile indices over a grid of
    `cols` by `rows` tiles, the collision lookup path-finding relies on, the search for
    the closest walkable tile, and the chunk arithmetic. Loading the layers from their
    CSV files is not part of this model: the map is a value built elsewhere. */
module Tiles {
  import opened Common

  /** Side of a chunk, in tiles. */
  const CHUNK_SIZE: int := 20

  /** A layer cell without a tile. */
  const NO_TILE: int := -1

  /** A tile type: whether it blocks movement, and its index. */
  datatype TileDef = TileDef(collision: bool, index: int)

  /** `getTiles`: the five tile types the table is filled with. The fourth layer and the
      rest of the 8000-entry table are never filled. */
  const TILES: seq<TileDef> :=
    [TileDef(false, 0), TileDef(true, 1), TileDef(true, 2), TileDef(false, 3), TileDef(true, -1)]

  /** The layers of the map, indexed `[x][y]`: ground (`mapTileNumLayer1`), second
      ground (`mapTileNumLayer2`) and objects (`mapTileNumLayer3`). */
  datatype TileMap = TileMap(cols: nat, rows: nat, layer1: seq<seq<int>>, layer2: seq<seq<int>>,
                             layer3: seq<seq<int>>)

  /** A layer of the map's size whose cells are empty or a known tile type. */
  ghost predicate LayerValid(layer: seq<seq<int>>, cols: nat, rows: nat) {
    && |layer| == cols
    && forall x :: 0 <= x < cols ==>
         |layer[x]| == rows && forall y :: 0 <= y < rows ==> -1 <= layer[x][y] < |TILES|
  }

  /** A map whose three layers have its size and hold only empty cells and known tiles
      (any other index makes the collision lookup throw). */
  ghost predicate Valid(m: TileMap) {
    LayerValid(m.layer1, m.cols, m.rows) && LayerValid(m.layer2, m.cols, m.rows)
    && LayerValid(m.layer3, m.cols, m.rows)
  }

  predicate InBounds(m: TileMap, x: int, y: int) {
    0 <= x < m.cols && 0 <= y < m.rows
  }

  /** Whether the tile at `(x, y)` blocks movement: everything off the map does, and on
      the map the first of layers 3, 2 and 1 that holds a tile decides; a cell with no
      tile on any layer is free. */
  function Collides(m: TileMap, x: int, y: int): bool
    requires Valid(m)
  {
    if !InBounds(m, x, y) then true
    else if m.layer3[x][y] != NO_TILE then TILES[m.layer3[x][y]].collision
    else if m.layer2[x][y] != NO_TILE then TILES[m.layer2[x][y]].collision
    else if m.layer1[x][y] != NO_TILE then TILES[m.layer1[x][y]].collision
    else false
  }

  /** A tile an entity can stand on: on the map and not blocking. */
  predicate Walkable(m: TileMap, p: Pos)
    requires Valid(m)
  {
    InBounds(m, p.x, p.y) && !Collides(m, p.x, p.y)
  }

  /** `getCollisionByXandY`: the bounds check, then the layers in the order 3, 2, 1. */
  method GetCollisionByXandY(m: TileMap, x: int, y: int) returns (r: bool)
    requires Valid(m)
    ensures r == Collides(m, x, y)
  {
    if x < 0 || y < 0 || x >= |m.layer1| || y >= |m.layer1[0]| {
      return true;
    }
    assert InBounds(m, x, y);
    var layers := [m.layer3[x][y], m.layer2[x][y], m.layer1[x][y]];
    for k := 0 to |layers|
      invariant forall l :: 0 <= l < k ==> layers[l] == NO_TILE
    {
      if layers[k] == NO_TILE {
        continue;
      }
      assert layers[0] == m.layer3[x][y] && layers[1] == m.layer2[x][y] && layers[2] == m.layer1[x][y];
      return TILES[layers[k]].collision;
    }
    return false;
  }

  /** Distance in the king's-move sense: the ring of a square around `a` that `b` lies
      on. */
  function Chebyshev(a: Pos, b: Pos): nat {
    Max(Abs(a.x - b.x), Abs(a.y - b.y))
  }

  /** `q` comes before `p` in the order `getClosestWalkableTile` scans a ring: column by
      column from the left, each column from the top. */
  predicate ScannedBefore(q: Pos, p: Pos) {
    q.x < p.x || (q.x == p.x && q.y < p.y)
  }

  /** `p` is what `getClosestWalkableTile` answers for `c`: a walkable tile on the
      smallest ring around `c` that has one, and the first of that ring's walkable tiles
      in scan order. */
  ghost predicate IsClosestWalkable(m: TileMap, c: Pos, p: Pos)
    requires Valid(m)
  {
    && Walkable(m, p)
    && (forall q :: Chebyshev(c, q) < Chebyshev(c, p) ==> !Walkable(m, q))
    && (forall q :: Chebyshev(c, q) == Chebyshev(c, p) && ScannedBefore(q, p) ==> !Walkable(m, q))
  }

  /** The answer is determined: there is at most one closest walkable tile. */
  lemma ClosestWalkableUnique(m: TileMap, c: Pos, p: Pos, p': Pos)
    requires Valid(m) && IsClosestWalkable(m, c, p) && IsClosestWalkable(m, c, p')
    ensures p == p'
  {
  }

  /** `getClosestWalkableTile`: rings of growing size around `(x, y)`, each scanned
      column by column, until a walkable tile turns up. The source loops forever on a map
      without one; such a map is excluded here. */
  method GetClosestWalkableTile(m: TileMap, x: int, y: int) returns (p: Pos)
    requires Valid(m)
    requires exists w :: Walkable(m, w)
    ensures IsClosestWalkable(m, Pos(x, y), p)
  {
    ghost var w :| Walkable(m, w);
    ghost var c := Pos(x, y);
    var distance := 0;
    while true
      invariant 0 <= distance <= Chebyshev(c, w)
      invariant forall q :: Chebyshev(c, q) < distance ==> !Walkable(m, q)
      decreases Chebyshev(c, w) - distance
    {
      var found := ScanRing(m, x, y, distance);
      if found.Some? {
        return found.value;
      }
      distance := distance + 1;
    }
  }

  /** One ring of `getClosestWalkableTile`: the columns `x - d` to `x + d`, left to
      right. */
  method ScanRing(m: TileMap, x: int, y: int, d: int) returns (found: Option<Pos>)
    requires Valid(m) && 0 <= d
    ensures found.Some? ==>
      && Chebyshev(Pos(x, y), found.value) == d && Walkable(m, found.value)
      && forall q :: Chebyshev(Pos(x, y), q) == d && ScannedBefore(q, found.value) ==> !Walkable(m, q)
    ensures found.None? ==> forall q :: Chebyshev(Pos(x, y), q) == d ==> !Walkable(m, q)
  {
    var i := -d;
    while i <= d
      invariant -d <= i <= d + 1
      invariant forall q :: Chebyshev(Pos(x, y), q) == d && q.x < x + i ==> !Walkable(m, q)
    {
      found := ScanColumn(m, x, y, d, i);
      if found.Some? {
        return;
      }
      i := i + 1;
    }
    found := None;
  }

  /** One column of a ring: the rows `y - d` to `y + d`, top to bottom, of which only
      the ring's own tiles are looked at. */
  method ScanColumn(m: TileMap, x: int, y: int, d: int, i: int) returns (found: Option<Pos>)
    requires Valid(m) && 0 <= d && -d <= i <= d
    ensures found.Some? ==>
      && found.value.x == x + i && Chebyshev(Pos(x, y), found.value) == d && Walkable(m, found.value)
      && forall q :: Chebyshev(Pos(x, y), q) == d && q.x == x + i && q.y < found.value.y ==> !Walkable(m, q)
    ensures found.None? ==> forall q :: Chebyshev(Pos(x, y), q) == d && q.x == x + i ==> !Walkable(m, q)
  {
    var j := -d;
    while j <= d
      invariant -d <= j <= d + 1
      invariant forall q :: Chebyshev(Pos(x, y), q) == d && q.x == x + i && q.y < y + j ==> !Walkable(m, q)
    {
      if i == -d || i == d || j == -d || j == d {
        var newX := x + i;
        var newY := y + j;
        if newX >= 0 && newX < m.cols && newY >= 0 && newY < m.rows {
          var blocked := GetCollisionByXandY(m, newX, newY);
          if !blocked {
            return Some(Pos(newX, newY));
          }
        }
      }
      j := j + 1;
    }
    return None;
  }

  /** Java's `/` on `int`: the quotient truncated towards zero, so it lies on the side
      of zero of the exact quotient and within one divisor of the dividend. */
  function JavaDiv(a: int, b: int): (r: int)
    requires b > 0
    ensures a >= 0 ==> 0 <= r && r * b <= a < r * b + b
    ensures a < 0 ==> r <= 0 && r * b - b < a <= r * b
  {
    if a >= 0 then
      EuclidBounds(a, b);
      a / b
    else
      EuclidBounds(-a, b);
      var q := (-a) / b;
      assert (-q) * b == -(q * b);
      -q
  }

  /** Dafny's `/` on a non-negative dividend: the largest multiple not above it. */
  lemma EuclidBounds(a: int, b: int)
    requires a >= 0 && b > 0
    ensures 0 <= a / b && (a / b) * b <= a < (a / b) * b + b
  {
    var q, r := a / b, a % b;
    assert a == q * b + r && 0 <= r < b;
  }

  /** Java's `%` on `int`: the remainder takes the sign of the dividend. */
  function JavaRem(a: int, b: int): (r: int)
    requires b > 0
    ensures a == JavaDiv(a, b) * b + r
    ensures a >= 0 ==> 0 <= r < b
    ensures a < 0 ==> -b < r <= 0
  {
    a - JavaDiv(a, b) * b
  }

  /** Chunks per row of chunks. */
  function ChunksPerRow(m: TileMap): nat {
    m.cols / CHUNK_SIZE
  }

  /** `getChunkByWorldXandY`: the chunk holding `(x, y)`, chunks numbered row by row
      from the top left. The division by the chunk size cannot throw, so the source's
      `-1` fallback is never taken. On the map every tile lies in a chunk numbered from
      0; on a map whose sides are whole chunks the number stays below the number of
      chunks, and splits back into the tile's chunk column and row. */
  function ChunkOf(m: TileMap, x: int, y: int): (r: int)
    ensures InBounds(m, x, y) ==> r >= 0
    ensures InBounds(m, x, y) && m.cols % CHUNK_SIZE == 0 && m.rows % CHUNK_SIZE == 0 ==>
      var w := ChunksPerRow(m);
      && r < w * (m.rows / CHUNK_SIZE)
      && JavaRem(r, w) == x / CHUNK_SIZE && JavaDiv(r, w) == y / CHUNK_SIZE
  {
    var r := JavaDiv(x, CHUNK_SIZE) + JavaDiv(y, CHUNK_SIZE) * JavaDiv(m.cols, CHUNK_SIZE);
    if InBounds(m, x, y) then ChunkNumber(x, y, m.cols, m.rows); r else r
  }

  /** The chunk number of a tile on a `cols` by `rows` map, as `ChunkOf` states it. */
  lemma ChunkNumber(x: int, y: int, cols: int, rows: int)
    requires 0 <= x < cols && 0 <= y < rows
    ensures var w := JavaDiv(cols, CHUNK_SIZE);
      var r := JavaDiv(x, CHUNK_SIZE) + JavaDiv(y, CHUNK_SIZE) * w;
      && r >= 0
      && (cols % CHUNK_SIZE == 0 && rows % CHUNK_SIZE == 0 ==>
            && w == cols / CHUNK_SIZE && r < w * (rows / CHUNK_SIZE)
            && JavaRem(r, w) == x / CHUNK_SIZE && JavaDiv(r, w) == y / CHUNK_SIZE)
  {
    var cx, cy, w := x / CHUNK_SIZE, y / CHUNK_SIZE, cols / CHUNK_SIZE;
    assert JavaDiv(x, CHUNK_SIZE) == cx && JavaDiv(y, CHUNK_SIZE) == cy && JavaDiv(cols, CHUNK_SIZE) == w;
    assert cy * w >= 0;
    if cols % CHUNK_SIZE == 0 && rows % CHUNK_SIZE == 0 {
      DivBelow(x, cols, CHUNK_SIZE);
      DivBelow(y, rows, CHUNK_SIZE);
      ChunkCell(cx, cy, w);
      BelowGrid(cx, cy, w, rows / CHUNK_SIZE);
    }
  }

  /** Below a multiple of `d`, the quotient by `d` stays below that multiple's. */
  lemma DivBelow(a: int, n: int, d: int)
    requires d > 0 && 0 <= a < n && n % d == 0
    ensures a / d < n / d
  {
    var q, k := a / d, n / d;
    assert q * d <= a && n == k * d;
    assert (k - q) * d > 0;
  }

  /** A cell of a grid `w` wide and `h` high has a number below `w * h`. */
  lemma BelowGrid(cx: int, cy: int, w: int, h: int)
    requires 0 <= cx < w && 0 <= cy < h
    ensures 0 <= cx + cy * w < w * h
  {
    assert cy * w <= (h - 1) * w;
  }

  /** The chunk number of a column and row splits back into them. */
  lemma ChunkCell(cx: int, cy: int, w: int)
    requires 0 <= cx < w && 0 <= cy
    ensures JavaRem(cx + cy * w, w) == cx && JavaDiv(cx + cy * w, w) == cy
  {
    var n := cx + cy * w;
    var q, r := n / w, n % w;
    assert (q - cy) * w == cx - r;
    ZeroFactor(q - cy, w);
  }

  /** An integer multiple of `w` strictly between `-w` and `w` is zero. */
  lemma ZeroFactor(a: int, w: int)
    requires w > 0 && -w < a * w < w
    ensures a == 0
  {
  }

  /** The offsets of the eight neighbours of a chunk, row by row. */
  const NEIGHBOR_OFFSETS: seq<Pos> :=
    [Pos(-1, -1), Pos(0, -1), Pos(1, -1), Pos(-1, 0), Pos(1, 0), Pos(-1, 1), Pos(0, 1), Pos(1, 1)]

  /** `getNeighborChunks`: the numbers of the eight chunks around `chunk`, row by row,
      without bounds filtering. A map narrower than a chunk makes the division throw, and
      the source answers `null`. */
  function NeighborChunks(m: TileMap, chunk: int): (r: Option<seq<int>>)
    ensures r.None? <==> ChunksPerRow(m) == 0
    ensures r.Some? ==> |r.value| == 8
  {
    var w := JavaDiv(m.cols, CHUNK_SIZE);
    if w == 0 then None
    else
      var cx := JavaRem(chunk, w);
      var cy := JavaDiv(chunk, w);
      Some([cx - 1 + (cy - 1) * w, cx + (cy - 1) * w, cx + 1 + (cy - 1) * w,
            cx - 1 + cy * w, cx + 1 + cy * w,
            cx - 1 + (cy + 1) * w, cx + (cy + 1) * w, cx + 1 + (cy + 1) * w])
  }

  /** For a chunk on the map, the `k`-th neighbour is the chunk number of the cell at
      the `k`-th offset from the chunk's cell. */
  lemma NeighborChunksSurround(m: TileMap, cx: int, cy: int)
    requires 0 <= cx < ChunksPerRow(m) && 0 <= cy
    ensures var w := ChunksPerRow(m); var r := NeighborChunks(m, cx + cy * w);
      forall k :: 0 <= k < 8 ==>
        r.value[k] == (cx + NEIGHBOR_OFFSETS[k].x) + (cy + NEIGHBOR_OFFSETS[k].y) * w
  {
    ChunkCell(cx, cy, ChunksPerRow(m));
  }

  /** Without bounds filtering, the neighbours of a corner chunk include numbers that
      are no chunk: on a map one chunk wide, chunk 0 has neighbours -2 and -1, and the
      "left" and "right" ones are chunks of other rows. */
  lemma NeighborChunksUnfiltered()
    ensures NeighborChunks(TileMap(20, 20, [], [], []), 0) == Some([-2, -1, 0, -1, 1, 0, 1, 2])
  {
  }

  /** `getTileByXandY`: the ground tile, or the second-layer tile where the ground is
      empty; `None` where the source answers `null` (off the map, or no tile on either
      layer). */
  function TileAt(m: TileMap, x: int, y: int): (r: Option<TileDef>)
    requires Valid(m)
    ensures r.Some? <==> InBounds(m, x, y) && (m.layer1[x][y] != NO_TILE || m.layer2[x][y] != NO_TILE)
    ensures r.Some? && m.layer1[x][y] != NO_TILE ==> r.value == TILES[m.layer1[x][y]]
    ensures r.Some? && m.layer1[x][y] == NO_TILE ==> r.value == TILES[m.layer2[x][y]]
  {
    if !InBounds(m, x, y) then None
    else
      var index := if m.layer1[x][y] == NO_TILE then m.layer2[x][y] else m.layer1[x][y];
      if 0 <= index < |TILES| then Some(TILES[index]) else None
  }

  /** The tile `getTileByXandY` answers and the collision lookup agree where there is no
      object and only one ground layer holds a tile; elsewhere they can differ, since one
      prefers layer 1 and the other layer 2. */
  lemma TileAtAgreesWithCollision(m: TileMap, x: int, y: int)
    requires Valid(m) && InBounds(m, x, y) && m.layer3[x][y] == NO_TILE
    requires (m.layer1[x][y] == NO_TILE) != (m.layer2[x][y] == NO_TILE)
    ensures TileAt(m, x, y).Some? && TileAt(m, x, y).value.collision == Collides(m, x, y)
  {
  }
}
