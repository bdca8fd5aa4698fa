/** The server's path-finder (`AStar`): A* over the tile map from a start tile to a target
    tile, or to the closest walkable tile when the target blocks. Nodes are kept by their
    tile: the open list is a sequence in insertion order, the closed list a set, and the
    costs and parent links of the nodes are maps from tiles. */
module Pathfinding {
  import opened Common
  import opened Tiles

  /** `getDistance`: the octile distance scaled by ten, 14 per diagonal step and 10 per
      straight one. */
  function Distance(a: Pos, b: Pos): (r: nat)
    ensures var dx := Abs(a.x - b.x); var dy := Abs(a.y - b.y);
      10 * Max(dx, dy) <= r <= 14 * Max(dx, dy)
    ensures r == 0 <==> a == b
  {
    var dx := Abs(a.x - b.x);
    var dy := Abs(a.y - b.y);
    var straight := Abs(dx - dy);
    var diagonal := Min(dx, dy);
    diagonal * 14 + straight * 10
  }

  /** The distance does not depend on the direction it is measured in. */
  lemma DistanceSymmetric(a: Pos, b: Pos)
    ensures Distance(a, b) == Distance(b, a)
  {
    assert Abs(a.x - b.x) == Abs(b.x - a.x) && Abs(a.y - b.y) == Abs(b.y - a.y);
  }

  /** The eight directions `getNeighbors` tries, in its order: the four straight ones,
      then the diagonals. */
  const DIRECTIONS: seq<Pos> :=
    [Pos(0, 1), Pos(1, 0), Pos(0, -1), Pos(-1, 0), Pos(1, 1), Pos(-1, 1), Pos(1, -1), Pos(-1, -1)]

  /** The rule of `getNeighbors` for the direction `d` from `p`: the tile reached is
      free, and a diagonal also needs both tiles at its corner free. */
  predicate Admits(m: TileMap, p: Pos, d: Pos)
    requires Valid(m)
  {
    && !Collides(m, p.x + d.x, p.y + d.y)
    && (d.x != 0 && d.y != 0 ==> !Collides(m, p.x + d.x, p.y) && !Collides(m, p.x, p.y + d.y))
  }

  /** The eight directions as offsets: each coordinate moves by at most one, and not
      both by none. */
  predicate IsDirection(d: Pos) {
    -1 <= d.x <= 1 && -1 <= d.y <= 1 && (d.x != 0 || d.y != 0)
  }

  /** The directions `getNeighbors` tries are exactly the eight offsets, none twice. */
  lemma DirectionsAreOffsets(d: Pos)
    ensures d in DIRECTIONS <==> IsDirection(d)
    ensures forall i, j :: 0 <= i < j < |DIRECTIONS| ==> DIRECTIONS[i] != DIRECTIONS[j]
  {
    if IsDirection(d) {
      if d.x == 0 {
        assert d == DIRECTIONS[0] || d == DIRECTIONS[2];
      } else if d.y == 0 {
        assert d == DIRECTIONS[1] || d == DIRECTIONS[3];
      } else {
        assert d == DIRECTIONS[4] || d == DIRECTIONS[5] || d == DIRECTIONS[6] || d == DIRECTIONS[7];
      }
    }
  }

  /** One move of a path: to one of the eight surrounding tiles, as the rule admits. */
  predicate Step(m: TileMap, p: Pos, q: Pos)
    requires Valid(m)
  {
    var d := Pos(q.x - p.x, q.y - p.y);
    IsDirection(d) && Admits(m, p, d)
  }

  /** A path every move of which is a `Step`. */
  ghost predicate Steps(m: TileMap, path: seq<Pos>)
    requires Valid(m)
  {
    forall i :: 0 <= i < |path| - 1 ==> Step(m, path[i], path[i + 1])
  }

  /** The neighbours of `p` in the directions `dirs`, in their order. */
  function NeighborsIn(m: TileMap, p: Pos, dirs: seq<Pos>): (r: seq<Pos>)
    requires Valid(m)
    ensures forall q :: q in r <==> exists d :: d in dirs && q == Pos(p.x + d.x, p.y + d.y) && Admits(m, p, d)
  {
    if |dirs| == 0 then []
    else
      var d := dirs[|dirs| - 1];
      var rest := NeighborsIn(m, p, dirs[..|dirs| - 1]);
      assert forall e :: e in dirs <==> e in dirs[..|dirs| - 1] || e == d by {
        assert dirs == dirs[..|dirs| - 1] + [d];
      }
      rest + (if Admits(m, p, d) then [Pos(p.x + d.x, p.y + d.y)] else [])
  }

  /** What `getNeighbors` lists: exactly the tiles one `Step` away. */
  lemma NeighborsAreSteps(m: TileMap, p: Pos, q: Pos)
    requires Valid(m)
    ensures q in NeighborsIn(m, p, DIRECTIONS) <==> Step(m, p, q)
  {
    var d := Pos(q.x - p.x, q.y - p.y);
    DirectionsAreOffsets(d);
    if q in NeighborsIn(m, p, DIRECTIONS) {
      var e :| e in DIRECTIONS && q == Pos(p.x + e.x, p.y + e.y) && Admits(m, p, e);
      assert e == d;
    }
    if Step(m, p, q) {
      assert d in DIRECTIONS && q == Pos(p.x + d.x, p.y + d.y);
    }
  }

  /** `getNeighbors`: the eight directions in turn, keeping the admitted ones. */
  method GetNeighbors(m: TileMap, p: Pos) returns (neighbors: seq<Pos>)
    requires Valid(m)
    ensures neighbors == NeighborsIn(m, p, DIRECTIONS)
    ensures forall q :: q in neighbors <==> Step(m, p, q)
  {
    neighbors := [];
    for k := 0 to |DIRECTIONS|
      invariant neighbors == NeighborsIn(m, p, DIRECTIONS[..k])
    {
      var d := DIRECTIONS[k];
      assert DIRECTIONS[..k + 1][..k] == DIRECTIONS[..k];
      var nx := p.x + d.x;
      var ny := p.y + d.y;
      var blocked := GetCollisionByXandY(m, nx, ny);
      if blocked {
        continue;
      }
      if d.x != 0 && d.y != 0 {
        var cornerX := GetCollisionByXandY(m, p.x + d.x, p.y);
        if cornerX {
          continue;
        }
        var cornerY := GetCollisionByXandY(m, p.x, p.y + d.y);
        if cornerY {
          continue;
        }
      }
      neighbors := neighbors + [Pos(nx, ny)];
    }
    assert DIRECTIONS[..|DIRECTIONS|] == DIRECTIONS;
    forall q ensures q in neighbors <==> Step(m, p, q) {
      NeighborsAreSteps(m, p, q);
    }
  }

  /** Parent links that lead back, since every parent was ranked (entered the search)
      before its child. */
  ghost predicate Ranked(parent: map<Pos, Pos>, rank: map<Pos, nat>) {
    forall p :: p in parent ==> p in rank && parent[p] in rank && rank[parent[p]] < rank[p]
  }

  /** The chain of parents from the root of `p`'s tree down to `p`. */
  ghost function Ancestry(parent: map<Pos, Pos>, rank: map<Pos, nat>, p: Pos): (r: seq<Pos>)
    requires Ranked(parent, rank) && p in rank
    ensures |r| >= 1 && r[|r| - 1] == p && r[0] in rank && r[0] !in parent
    decreases rank[p]
  {
    if p in parent then Ancestry(parent, rank, parent[p]) + [p] else [p]
  }

  /** With every parent link a `Step` and the start the only root, the chain of parents
      of any ranked tile is a path from the start to it. */
  lemma {:induction false} AncestryIsPath(m: TileMap, parent: map<Pos, Pos>, rank: map<Pos, nat>,
                                          start: Pos, p: Pos)
    requires Valid(m) && Ranked(parent, rank) && p in rank
    requires forall q :: q in parent ==> Step(m, parent[q], q)
    requires forall q :: q in rank && q !in parent ==> q == start
    ensures var path := Ancestry(parent, rank, p);
      path[0] == start && Steps(m, path)
    decreases rank[p]
  {
    if p in parent {
      AncestryIsPath(m, parent, rank, start, parent[p]);
      var prefix := Ancestry(parent, rank, parent[p]);
      var path := prefix + [p];
      assert Ancestry(parent, rank, p) == path;
      forall i | 0 <= i < |path| - 1
        ensures Step(m, path[i], path[i + 1])
      {
        if i < |prefix| - 1 {
          assert path[i] == prefix[i] && path[i + 1] == prefix[i + 1];
        } else {
          assert path[i] == parent[p] && path[i + 1] == p;
        }
      }
    }
  }

  /** Collections.reverse: `s` back to front. */
  function Reversed<T>(s: seq<T>): (r: seq<T>)
    ensures |r| == |s| && forall i :: 0 <= i < |s| ==> r[i] == s[|s| - 1 - i]
  {
    if |s| == 0 then [] else Reversed(s[1..]) + [s[0]]
  }

  /** `constructPath`: the parent chain from `goal` collected child first, then
      reversed. */
  method ConstructPath(parent: map<Pos, Pos>, ghost rank: map<Pos, nat>, goal: Pos)
    returns (path: seq<Pos>)
    requires Ranked(parent, rank) && goal in rank
    ensures path == Ancestry(parent, rank, goal)
  {
    var collected: seq<Pos> := [];
    var current: Option<Pos> := Some(goal);
    while current.Some?
      invariant current.Some? ==> current.value in rank
      invariant current.Some? ==> Ancestry(parent, rank, goal) == Ancestry(parent, rank, current.value) + Reversed(collected)
      invariant current.None? ==> Ancestry(parent, rank, goal) == Reversed(collected)
      decreases if current.Some? then rank[current.value] + 1 else 0
    {
      var node := current.value;
      ghost var before := collected;
      collected := collected + [node];
      ReversedSnoc(before, node);
      current := if node in parent then Some(parent[node]) else None;
    }
    path := Reversed(collected);
  }

  lemma {:induction false} ReversedSnoc<T>(s: seq<T>, x: T)
    ensures Reversed(s + [x]) == [x] + Reversed(s)
    decreases |s|
  {
    if |s| > 0 {
      assert (s + [x])[1..] == s[1..] + [x];
      ReversedSnoc(s[1..], x);
    } else {
      assert s + [x] == [x];
    }
  }

  /** The state of the search: the open list (insertion order), the closed set, and the
      cost `g` so far, the estimate `f` and the parent link of each tile reached. */
  datatype Search = Search(open: seq<Pos>, closed: set<Pos>, g: map<Pos, int>, f: map<Pos, int>,
                           parent: map<Pos, Pos>)

  /** What the search keeps true, with `rank` the order tiles entered it in: the open
      list has no repeats and nothing closed; costs are known and non-negative; every
      parent link is a `Step` from a tile ranked earlier; the start is the only root. */
  ghost predicate Inv(m: TileMap, start: Pos, s: Search, rank: map<Pos, nat>, next: nat)
    requires Valid(m)
  {
    Lists(s, rank) && Tree(start, s.parent, rank, next, Linker(m))
  }

  /** The open and closed lists: no tile open twice, none both open and closed, every
      open tile costed, every cost non-negative, every listed tile ranked. */
  ghost predicate Lists(s: Search, rank: map<Pos, nat>) {
    && (forall p :: p in s.open ==> p in s.g && p in s.f && p in rank && p !in s.closed)
    && (forall i, j :: 0 <= i < j < |s.open| ==> s.open[i] != s.open[j])
    && (forall p :: p in s.closed ==> p in rank)
    && (forall p :: p in s.g ==> s.g[p] >= 0)
    && (forall p :: p in rank ==> p in s.open || p in s.closed)
  }

  /** The moves a parent link may make on `m`: its `Step`s. */
  ghost function Linker(m: TileMap): (Pos, Pos) -> bool {
    (p: Pos, q: Pos) => Valid(m) && Step(m, p, q)
  }

  /** The parent links: a tree rooted at the start whose every link is a move `linked`
      admits, from a tile ranked earlier. */
  ghost predicate Tree(start: Pos, parent: map<Pos, Pos>, rank: map<Pos, nat>, next: nat,
                       linked: (Pos, Pos) -> bool)
  {
    && start in rank && start !in parent
    && Ranked(parent, rank)
    && (forall p :: p in parent ==> linked(parent[p], p))
    && (forall p :: p in rank ==> rank[p] < next && (p == start || p in parent))
  }

  /** Nothing leaks out of the closed tiles: every move `linked` admits from a closed
      tile lands on a tile that is open or closed. */
  ghost predicate Enclosed(s: Search, linked: (Pos, Pos) -> bool) {
    forall p, q :: p in s.closed && linked(p, q) ==> q in s.open || q in s.closed
  }

  /** A path of moves leads from `start` to `w`. */
  ghost predicate Reaches(m: TileMap, start: Pos, w: Pos)
    requires Valid(m)
  {
    exists path :: |path| > 0 && path[0] == start && path[|path| - 1] == w && Steps(m, path)
  }

  /** Every tile of a path of moves that starts inside a set closed under moves lies in
      that set. */
  lemma {:induction false} StepsStayIn(m: TileMap, path: seq<Pos>, c: set<Pos>, i: nat)
    requires Valid(m) && Steps(m, path) && i < |path| && path[0] in c
    requires forall p, q :: p in c && Step(m, p, q) ==> q in c
    ensures path[i] in c
  {
    if i > 0 {
      StepsStayIn(m, path, c, i - 1);
      assert Step(m, path[i - 1], path[i]);
    }
  }

  /** A set of tiles that holds the start and every move out of its tiles, but not `w`,
      shows that no path of moves leads from the start to `w`. */
  lemma EnclosedUnreachable(m: TileMap, start: Pos, w: Pos, c: set<Pos>)
    requires Valid(m) && start in c && w !in c
    requires forall p, q :: p in c && Step(m, p, q) ==> q in c
    ensures !Reaches(m, start, w)
  {
    if Reaches(m, start, w) {
      var path :| |path| > 0 && path[0] == start && path[|path| - 1] == w && Steps(m, path);
      StepsStayIn(m, path, c, |path| - 1);
    }
  }

  /** The tiles a search from `start` can ever close: those of the map, and the start. */
  ghost function Universe(m: TileMap, start: Pos): set<Pos> {
    (set x, y | 0 <= x < m.cols && 0 <= y < m.rows :: Pos(x, y)) + {start}
  }

  /** The head of a priority queue ordered by `f`: the first tile in the open list with
      the least estimate. */
  method PollCheapest(open: seq<Pos>, f: map<Pos, int>) returns (k: nat)
    requires |open| > 0 && forall p :: p in open ==> p in f
    ensures k < |open|
    ensures forall i :: 0 <= i < |open| ==> f[open[k]] <= f[open[i]]
    ensures forall i :: 0 <= i < k ==> f[open[k]] < f[open[i]]
  {
    k := 0;
    for i := 1 to |open|
      invariant k < i
      invariant forall l :: 0 <= l < i ==> f[open[k]] <= f[open[l]]
      invariant forall l :: 0 <= l < k ==> f[open[k]] < f[open[l]]
    {
      if f[open[i]] < f[open[k]] {
        k := i;
      }
    }
  }

  /** The `g` of a neighbour fresh from `getNeighbors`, which the decrease-key test
      compares against: always 0, so the test never passes for a tile already open. */
  const FRESH_G: int := 0

  /** A tile new to the search joining the open list keeps the lists in order. */
  lemma ListsAdmit(s: Search, rank: map<Pos, nat>, next: nat, neighbor: Pos, gCost: int, fCost: int)
    requires Lists(s, rank) && neighbor !in s.closed && neighbor !in s.open && gCost >= 0
    ensures Lists(Search(s.open + [neighbor], s.closed, s.g[neighbor := gCost],
                         s.f[neighbor := fCost], s.parent), rank[neighbor := next])
  {
    var open := s.open + [neighbor];
    forall i, j | 0 <= i < j < |open| ensures open[i] != open[j] {
      if j == |open| - 1 {
        assert open[i] == s.open[i];
      } else {
        assert open[i] == s.open[i] && open[j] == s.open[j];
      }
    }
  }

  /** A tile new to the search hung below a ranked one by an admitted move keeps the
      tree a tree. */
  lemma TreeAdmit(start: Pos, parent: map<Pos, Pos>, rank: map<Pos, nat>, next: nat,
                  linked: (Pos, Pos) -> bool, current: Pos, neighbor: Pos)
    requires Tree(start, parent, rank, next, linked)
    requires current in rank && linked(current, neighbor) && neighbor !in rank
    ensures Tree(start, parent[neighbor := current], rank[neighbor := next], next + 1, linked)
  {
  }

  /** The loop over the neighbours of `current` in `findPath`: each one neither closed
      nor open is given its costs and parent and joins the open list. A neighbour comes
      fresh from `getNeighbors` with `g` 0, so one already open is never re-costed. */
  method Expand(m: TileMap, start: Pos, goal: Pos, current: Pos, neighbors: seq<Pos>, s: Search,
                ghost rank: map<Pos, nat>, ghost next: nat)
    returns (s': Search, ghost rank': map<Pos, nat>, ghost next': nat)
    requires Valid(m) && Inv(m, start, s, rank, next)
    requires current in s.closed && current in s.g
    requires forall q :: q in neighbors ==> Step(m, current, q)
    ensures Inv(m, start, s', rank', next') && s'.closed == s.closed
    ensures forall q :: q in s.open ==> q in s'.open
    ensures forall q :: q in neighbors ==> q in s'.open || q in s'.closed
  {
    s', rank', next' := s, rank, next;
    for n := 0 to |neighbors|
      invariant Inv(m, start, s', rank', next') && s'.closed == s.closed
      invariant current in s'.g && s'.g[current] == s.g[current]
      invariant forall q :: q in s.open ==> q in s'.open
      invariant forall j :: 0 <= j < n ==> neighbors[j] in s'.open || neighbors[j] in s'.closed
    {
      var neighbor := neighbors[n];
      if neighbor in s'.closed {
        continue;
      }
      var gCost := s'.g[current] + Distance(current, neighbor);
      var isInOpenList := neighbor in s'.open;
      if !isInOpenList || gCost < FRESH_G {
        var fCost := gCost + Distance(neighbor, goal);
        ListsAdmit(s', rank', next', neighbor, gCost, fCost);
        assert Linker(m)(current, neighbor);
        TreeAdmit(start, s'.parent, rank', next', Linker(m), current, neighbor);
        s' := Search(s'.open + [neighbor], s'.closed, s'.g[neighbor := gCost], s'.f[neighbor := fCost],
                     s'.parent[neighbor := current]);
        rank' := rank'[neighbor := next'];
        next' := next' + 1;
      }
    }
  }

  /** Taking the `k`-th tile off the open list and closing it keeps the lists in order. */
  lemma ListsClose(s: Search, rank: map<Pos, nat>, k: nat)
    requires Lists(s, rank) && k < |s.open|
    ensures Lists(s.(open := s.open[..k] + s.open[k + 1..], closed := s.closed + {s.open[k]}), rank)
  {
    DropAt(s.open, k);
  }

  /** Dropping the `k`-th element of a list without repeats leaves a list without
      repeats holding everything else. */
  lemma DropAt(xs: seq<Pos>, k: nat)
    requires k < |xs| && forall i, j :: 0 <= i < j < |xs| ==> xs[i] != xs[j]
    ensures var r := xs[..k] + xs[k + 1..];
      && (forall i, j :: 0 <= i < j < |r| ==> r[i] != r[j])
      && (forall p :: p in r <==> p in xs && p != xs[k])
  {
    var r := xs[..k] + xs[k + 1..];
    assert forall i :: 0 <= i < |r| ==> r[i] == xs[if i < k then i else i + 1];
    forall p | p in xs && p != xs[k] ensures p in r {
      var i :| 0 <= i < |xs| && xs[i] == p;
      assert p == r[if i < k then i else i - 1];
    }
  }

  /** Every tile of the tree other than the start is on the map: it was reached by a
      `Step`, and a step lands on a free tile. */
  lemma TreeOnMap(m: TileMap, start: Pos, parent: map<Pos, Pos>, rank: map<Pos, nat>, next: nat, p: Pos)
    requires Valid(m) && Tree(start, parent, rank, next, Linker(m)) && p in rank
    ensures p in Universe(m, start)
  {
    if p != start {
      assert Linker(m)(parent[p], p);
      assert InBounds(m, p.x, p.y);
      assert Pos(p.x, p.y) == p;
    }
  }

  /** One round of `findPath` past the goal test: the `k`-th open tile is closed and
      its neighbours are expanded. */
  method Visit(m: TileMap, start: Pos, goal: Pos, s: Search, ghost rank: map<Pos, nat>, ghost next: nat,
               k: nat)
    returns (s': Search, ghost rank': map<Pos, nat>, ghost next': nat)
    requires Valid(m) && Inv(m, start, s, rank, next) && k < |s.open|
    requires s.closed <= Universe(m, start) && Enclosed(s, Linker(m))
    ensures Inv(m, start, s', rank', next') && s'.closed == s.closed + {s.open[k]}
    ensures s'.closed <= Universe(m, start) && Enclosed(s', Linker(m))
    ensures |Universe(m, start) - s'.closed| < |Universe(m, start) - s.closed|
  {
    var current := s.open[k];
    ListsClose(s, rank, k);
    DropAt(s.open, k);
    TreeOnMap(m, start, s.parent, rank, next, current);
    assert Universe(m, start) - (s.closed + {current}) == (Universe(m, start) - s.closed) - {current};
    var s1 := s.(open := s.open[..k] + s.open[k + 1..], closed := s.closed + {current});
    var neighbors := GetNeighbors(m, current);
    s', rank', next' := Expand(m, start, goal, current, neighbors, s1, rank, next);
    forall p, q | p in s'.closed && Linker(m)(p, q)
      ensures q in s'.open || q in s'.closed
    {
      if p == current {
        assert q in neighbors;
      } else if q != current && q in s.open {
        assert q in s1.open;
      }
    }
  }

  /** What `findPath` may answer from `start` to `target`: a path of moves from the
      start to the target, or to the closest walkable tile when the target blocks; and the
      empty path only when no path of moves leads there. */
  ghost predicate PathFound(m: TileMap, start: Pos, target: Pos, path: seq<Pos>)
    requires Valid(m)
  {
    && (path != [] ==> path[0] == start && Steps(m, path))
    && (path != [] && !Collides(m, target.x, target.y) ==> path[|path| - 1] == target)
    && (path != [] && Collides(m, target.x, target.y) ==> IsClosestWalkable(m, target, path[|path| - 1]))
    && (path == [] && !Collides(m, target.x, target.y) ==> !Reaches(m, start, target))
    && (path == [] && Collides(m, target.x, target.y) ==>
          forall w :: IsClosestWalkable(m, target, w) ==> !Reaches(m, start, w))
  }

  /** `findPath`: A* from `start` to `target`, or to the closest walkable tile when
      `target` blocks. A path found starts at `start`, ends at that goal, and moves by
      `Step`s only; the search always ends, as each tile is closed at most once. The
      source loops forever looking for a walkable tile on a map without one; such a map
      is excluded when the target blocks. The empty path comes back only once the open
      list runs dry, and then no path of moves leads from the start to the goal. */
  method FindPath(m: TileMap, start: Pos, target: Pos) returns (path: seq<Pos>)
    requires Valid(m)
    requires Collides(m, target.x, target.y) ==> exists w :: Walkable(m, w)
    ensures path != [] ==> path[0] == start && Steps(m, path)
    ensures path != [] && !Collides(m, target.x, target.y) ==> path[|path| - 1] == target
    ensures path != [] && Collides(m, target.x, target.y) ==> IsClosestWalkable(m, target, path[|path| - 1])
    ensures !Collides(m, target.x, target.y) && start == target ==> path == [start]
    ensures path == [] && !Collides(m, target.x, target.y) ==> !Reaches(m, start, target)
    ensures path == [] && Collides(m, target.x, target.y) ==>
      forall w :: IsClosestWalkable(m, target, w) ==> !Reaches(m, start, w)
    ensures PathFound(m, start, target, path)
  {
    var goal := target;
    if Collides(m, target.x, target.y) {
      goal := GetClosestWalkableTile(m, target.x, target.y);
    }
    var s := Search([start], {}, map[start := 0], map[start := Distance(start, target)], map[]);
    ghost var rank: map<Pos, nat> := map[start := 0];
    ghost var next: nat := 1;
    while |s.open| > 0
      invariant Inv(m, start, s, rank, next)
      invariant s.closed <= Universe(m, start)
      invariant start == goal ==> s.open == [start] && s.closed == {}
      invariant Enclosed(s, Linker(m)) && goal !in s.closed
      decreases |Universe(m, start) - s.closed|
    {
      var k := PollCheapest(s.open, s.f);
      var current := s.open[k];
      if current == goal {
        path := ConstructPath(s.parent, rank, current);
        AncestryIsPath(m, s.parent, rank, start, current);
        return;
      }
      s, rank, next := Visit(m, start, goal, s, rank, next, k);
    }
    Exhausted(m, start, goal, s, rank, next);
    NothingFound(m, start, target, goal);
    return [];
  }

  /** With the goal out of reach, so is the target, or every closest walkable tile to it
      when it blocks: the goal is the only one. */
  lemma NothingFound(m: TileMap, start: Pos, target: Pos, goal: Pos)
    requires Valid(m) && !Reaches(m, start, goal)
    requires !Collides(m, target.x, target.y) ==> goal == target
    requires Collides(m, target.x, target.y) ==> IsClosestWalkable(m, target, goal)
    ensures PathFound(m, start, target, [])
  {
    forall w | Collides(m, target.x, target.y) && IsClosestWalkable(m, target, w)
      ensures !Reaches(m, start, w)
    {
      ClosestWalkableUnique(m, target, goal, w);
    }
  }

  /** When the open list runs dry without the goal ever being closed, the closed tiles
      hold the start and every move out of them, so the goal cannot be reached. */
  lemma Exhausted(m: TileMap, start: Pos, goal: Pos, s: Search, rank: map<Pos, nat>, next: nat)
    requires Valid(m) && Inv(m, start, s, rank, next) && s.open == []
    requires Enclosed(s, Linker(m)) && goal !in s.closed
    ensures !Reaches(m, start, goal)
  {
    forall p, q | p in s.closed && Step(m, p, q) ensures q in s.closed {
      assert Linker(m)(p, q);
    }
    EnclosedUnreachable(m, start, goal, s.closed);
  }
}
