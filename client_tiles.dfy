/** The client's ground tiles: the grid read from CSV text, the flat tiles laid on two
    layers, the height looked up under a tile, and the slope given to upper-layer tiles
    that border lower ground. */
module ClientTiles {
  import opened Common
  import opened ClientGeometry

  /** `LAYER_HEIGHT`: how far each layer sits above the one below. */
  const LAYER_HEIGHT: real := 0.5
  /** `DROP`: how far a corner of an upper tile is lowered toward lower ground. */
  const DROP: real := -LAYER_HEIGHT

  // ---------------------------------------------------------------------------------
  // CSV text

  /** The characters `String.prototype.trim` removes: the white space and the line
      terminators of ECMAScript (section 12.2 and 12.3 of ECMA-262), that is tab,
      vertical tab, form feed, space, no-break space, the byte order mark, the other
      space separators of Unicode, line feed, carriage return, and the line and
      paragraph separators. */
  predicate IsBlank(c: char) {
    var n := c as int;
    || (0x09 <= n <= 0x0D) || n == 0x20 || n == 0xA0 || n == 0x1680
    || (0x2000 <= n <= 0x200A) || n == 0x2028 || n == 0x2029 || n == 0x202F
    || n == 0x205F || n == 0x3000 || n == 0xFEFF
  }

  /** `trim`: the text without leading and trailing blanks. */
  function Trim(s: string): (t: string)
    ensures |t| <= |s|
    ensures |t| > 0 ==> !IsBlank(t[0]) && !IsBlank(t[|t| - 1])
    decreases |s|
  {
    if |s| > 0 && IsBlank(s[0]) then Trim(s[1..])
    else if |s| > 0 && IsBlank(s[|s| - 1]) then Trim(s[..|s| - 1])
    else s
  }

  /** `t` is the slice `s[i..j]`, and everything of `s` outside it is blank. */
  predicate SliceAmidBlanks(s: string, t: string, i: int, j: int) {
    && 0 <= i <= j <= |s| && t == s[i..j]
    && (forall k :: 0 <= k < i ==> IsBlank(s[k]))
    && (forall k :: j <= k < |s| ==> IsBlank(s[k]))
  }

  /** A blank put in front of the text keeps a slice amid blanks one further on. */
  lemma BlankBefore(s: string, t: string, i: int, j: int)
    requires |s| > 0 && IsBlank(s[0]) && SliceAmidBlanks(s[1..], t, i, j)
    ensures SliceAmidBlanks(s, t, i + 1, j + 1)
  {
    assert s[1..][i..j] == s[i + 1..j + 1];
    forall k | 0 < k < i + 1 ensures IsBlank(s[k]) {
      assert s[k] == s[1..][k - 1];
    }
    forall k | j + 1 <= k < |s| ensures IsBlank(s[k]) {
      assert s[k] == s[1..][k - 1];
    }
  }

  /** A blank put after the text keeps a slice amid blanks where it was. */
  lemma BlankAfter(s: string, t: string, i: int, j: int)
    requires |s| > 0 && IsBlank(s[|s| - 1]) && SliceAmidBlanks(s[..|s| - 1], t, i, j)
    ensures SliceAmidBlanks(s, t, i, j)
  {
    var init := s[..|s| - 1];
    assert init[i..j] == s[i..j];
    forall k | 0 <= k < i ensures IsBlank(s[k]) {
      assert s[k] == init[k];
    }
    forall k | j <= k < |init| ensures IsBlank(s[k]) {
      assert s[k] == init[k];
    }
  }

  /** What `trim` removes is blanks only, and only at the two ends: the result is a
      slice of the text with nothing but blanks before and after it. */
  lemma {:induction false} TrimStripsBlanks(s: string)
    ensures exists i, j :: SliceAmidBlanks(s, Trim(s), i, j)
    decreases |s|
  {
    if |s| > 0 && IsBlank(s[0]) {
      TrimStripsBlanks(s[1..]);
      var i, j :| SliceAmidBlanks(s[1..], Trim(s[1..]), i, j);
      BlankBefore(s, Trim(s), i, j);
    } else if |s| > 0 && IsBlank(s[|s| - 1]) {
      TrimStripsBlanks(s[..|s| - 1]);
      var i, j :| SliceAmidBlanks(s[..|s| - 1], Trim(s[..|s| - 1]), i, j);
      BlankAfter(s, Trim(s), i, j);
    } else {
      assert SliceAmidBlanks(s, Trim(s), 0, |s|);
    }
  }

  /** `split(sep)`: the pieces between separators, one more than there are separators. */
  function Split(s: string, sep: char): (parts: seq<string>)
    ensures |parts| >= 1
    ensures forall i :: 0 <= i < |parts| ==> sep !in parts[i]
    decreases |s|
  {
    if |s| == 0 then [""]
    else
      var rest := Split(s[1..], sep);
      if s[0] == sep then [""] + rest else [[s[0]] + rest[0]] + rest[1..]
  }

  /** The pieces put back together with the separator between them. */
  function Join(parts: seq<string>, sep: char): string
    requires |parts| >= 1
  {
    if |parts| == 1 then parts[0] else parts[0] + [sep] + Join(parts[1..], sep)
  }

  /** Splitting loses nothing: joining the pieces gives the text back. */
  lemma {:induction false} SplitJoin(s: string, sep: char)
    ensures Join(Split(s, sep), sep) == s
    decreases |s|
  {
    if |s| > 0 {
      var rest := Split(s[1..], sep);
      SplitJoin(s[1..], sep);
      if s[0] == sep {
        assert Split(s, sep) == [""] + rest;
        assert s == [sep] + s[1..];
      } else if |rest| == 1 {
        assert Split(s, sep) == [[s[0]] + rest[0]];
        assert s == [s[0]] + s[1..];
      } else {
        var parts := Split(s, sep);
        assert parts[1..] == rest[1..];
        assert Join(rest, sep) == rest[0] + [sep] + Join(rest[1..], sep);
        assert s == [s[0]] + s[1..];
      }
    }
  }

  /** Splitting text without the separator gives the text as the only piece. */
  lemma {:induction false} SplitWithoutSeparator(s: string, sep: char)
    requires sep !in s
    ensures Split(s, sep) == [s]
    decreases |s|
  {
    if |s| > 0 {
      assert sep !in s[1..];
      SplitWithoutSeparator(s[1..], sep);
      assert s == [s[0]] + s[1..];
    }
  }

  /** `loadCsvMap` once the file's text is in: trimmed, split into lines and each line
      into cells, each cell read by `Number` (a parameter: the platform's number
      parser, which gives `NaN` for text that is not a number). */
  function ParseCsv(text: string, number: string -> Num): (rows: seq<seq<Num>>)
    ensures |rows| == |Split(Trim(text), '\n')|
    ensures forall z :: 0 <= z < |rows| ==>
      |rows[z]| == |Split(Split(Trim(text), '\n')[z], ',')|
  {
    var lines := Split(Trim(text), '\n');
    seq(|lines|, z requires 0 <= z < |lines| =>
      var cells := Split(lines[z], ',');
      seq(|cells|, x requires 0 <= x < |cells| => number(cells[x])))
  }

  /** Each cell of the grid is the number read from the matching piece of the text. */
  lemma ParseCsvCell(text: string, number: string -> Num, z: int, x: int)
    requires 0 <= z < |ParseCsv(text, number)| && 0 <= x < |ParseCsv(text, number)[z]|
    ensures ParseCsv(text, number)[z][x] == number(Split(Split(Trim(text), '\n')[z], ',')[x])
  {
  }

  // ---------------------------------------------------------------------------------
  // Ground tiles

  /** The cell values that have a tile material (grass, water and pebbles). */
  predicate HasMaterial(c: Num) {
    c == Some(0.0) || c == Some(1.0) || c == Some(3.0)
  }

  /** A ground tile mesh as `getTileHeight` sees it: the `tx`, `tz` and `height` it
      stores in its user data. */
  datatype GroundTile = GroundTile(tx: int, tz: int, height: real)

  /** The key under which a tile is kept: `"x,z,layer"`. */
  datatype TileKey = TileKey(x: int, z: int, layer: int)

  /** The tiles of one grid row, left to right. */
  function RowTiles(row: seq<Num>, z: int, y: real): seq<GroundTile>
  {
    if |row| == 0 then []
    else
      var x := |row| - 1;
      RowTiles(row[..x], z, y) + (if HasMaterial(row[x]) then [GroundTile(x, z, y)] else [])
  }

  /** The tiles of a grid, row by row, all at height `y`. */
  function GridTiles(cells: seq<seq<Num>>, y: real): seq<GroundTile>
  {
    if |cells| == 0 then []
    else
      var z := |cells| - 1;
      GridTiles(cells[..z], y) + RowTiles(cells[z], z, y)
  }

  lemma {:induction false} RowTilesMembers(row: seq<Num>, z: int, y: real, t: GroundTile)
    ensures t in RowTiles(row, z, y) <==>
      t.tz == z && 0 <= t.tx < |row| && HasMaterial(row[t.tx]) && t.height == y
  {
    if |row| > 0 {
      var x := |row| - 1;
      RowTilesMembers(row[..x], z, y, t);
    }
  }

  /** A grid lays one tile, at height `y`, on each cell that has a material, and
      nothing else. */
  lemma {:induction false} GridTilesMembers(cells: seq<seq<Num>>, y: real, t: GroundTile)
    ensures t in GridTiles(cells, y) <==>
      0 <= t.tz < |cells| && 0 <= t.tx < |cells[t.tz]| && HasMaterial(cells[t.tz][t.tx]) && t.height == y
  {
    if |cells| > 0 {
      var z := |cells| - 1;
      GridTilesMembers(cells[..z], y, t);
      RowTilesMembers(cells[z], z, y, t);
    }
  }

  /** The tiles of all groups, group by group. */
  function Flatten(groups: seq<seq<GroundTile>>): seq<GroundTile>
  {
    if |groups| == 0 then [] else Flatten(groups[..|groups| - 1]) + groups[|groups| - 1]
  }

  lemma {:induction false} FlattenMembers(groups: seq<seq<GroundTile>>, g: int, c: int)
    requires 0 <= g < |groups| && 0 <= c < |groups[g]|
    ensures groups[g][c] in Flatten(groups)
  {
    var n := |groups| - 1;
    if g < n {
      FlattenMembers(groups[..n], g, c);
    }
  }

  /** The larger of two heights (`Math.max`). */
  function MaxHeight(a: real, b: real): real {
    if a >= b then a else b
  }

  /** The highest of 0 and the heights of the tiles at `(tx, tz)`. */
  function HighestAt(tiles: seq<GroundTile>, tx: int, tz: int): (h: real)
    ensures h >= 0.0
    ensures forall i :: 0 <= i < |tiles| && tiles[i].tx == tx && tiles[i].tz == tz ==> tiles[i].height <= h
    ensures h == 0.0 || exists i :: 0 <= i < |tiles| && tiles[i].tx == tx && tiles[i].tz == tz && tiles[i].height == h
  {
    if |tiles| == 0 then 0.0
    else
      var n := |tiles| - 1;
      var m := HighestAt(tiles[..n], tx, tz);
      if tiles[n].tx == tx && tiles[n].tz == tz then MaxHeight(m, tiles[n].height) else m
  }

  lemma HighestAtSnoc(tiles: seq<GroundTile>, t: GroundTile, tx: int, tz: int)
    ensures HighestAt(tiles + [t], tx, tz) ==
      if t.tx == tx && t.tz == tz then MaxHeight(HighestAt(tiles, tx, tz), t.height) else HighestAt(tiles, tx, tz)
  {
    assert (tiles + [t])[..|tiles|] == tiles;
  }

  /** `getTileHeight` on the ground groups. */
  function TileHeight(groups: seq<seq<GroundTile>>, tx: int, tz: int): real {
    HighestAt(Flatten(groups), tx, tz)
  }

  /** `getTileHeight` of coordinates that may be `NaN`: no tile's coordinates equal
      `NaN`, so the answer is then 0. */
  function NumTileHeight(groups: seq<seq<GroundTile>>, tx: Option<int>, tz: Option<int>): (h: real)
    ensures h >= 0.0
  {
    if tx.Some? && tz.Some? then TileHeight(groups, tx.value, tz.value) else 0.0
  }

  /** The height at a tile is never below that of any ground tile there, in any
      group, and is 0 where there is none. */
  lemma TileHeightCovers(groups: seq<seq<GroundTile>>, g: int, c: int)
    requires 0 <= g < |groups| && 0 <= c < |groups[g]|
    ensures groups[g][c].height <= TileHeight(groups, groups[g][c].tx, groups[g][c].tz)
  {
    FlattenMembers(groups, g, c);
  }

  lemma TileHeightWithoutTiles(groups: seq<seq<GroundTile>>, tx: int, tz: int)
    requires forall t :: t in Flatten(groups) ==> t.tx != tx || t.tz != tz
    ensures TileHeight(groups, tx, tz) == 0.0
  {
    var tiles := Flatten(groups);
    forall i | 0 <= i < |tiles|
      ensures tiles[i].tx != tx || tiles[i].tz != tz
    {
      assert tiles[i] in tiles;
    }
  }

  // ---------------------------------------------------------------------------------
  // Slopes

  /** Which of the eight lower-layer tiles around a tile exist. */
  datatype Neighbours = Neighbours(north: bool, south: bool, west: bool, east: bool,
                                   nw: bool, ne: bool, sw: bool, se: bool)

  /** The neighbours `applySlopes` looks up for the tile at `(x, z)`: all on layer 0,
      north being smaller `z`. */
  function NeighboursOf(keys: set<TileKey>, x: int, z: int): Neighbours {
    Neighbours(TileKey(x, z - 1, 0) in keys, TileKey(x, z + 1, 0) in keys,
               TileKey(x - 1, z, 0) in keys, TileKey(x + 1, z, 0) in keys,
               TileKey(x - 1, z - 1, 0) in keys, TileKey(x + 1, z - 1, 0) in keys,
               TileKey(x - 1, z + 1, 0) in keys, TileKey(x + 1, z + 1, 0) in keys)
  }

  /** Only the lower layer's tiles decide the neighbours. */
  lemma NeighboursOfLowerLayer(keys: set<TileKey>, x: int, z: int)
    ensures NeighboursOf(keys, x, z) == NeighboursOf((set k | k in keys && k.layer == 0), x, z)
  {
  }

  /** The corner depths of an upper tile with neighbours `n`, corners in the order
      north-west, north-east, south-west, south-east: a corner drops by a layer when an
      edge or the diagonal next to it has lower ground, and stays level otherwise. */
  predicate SlopedFor(zs: seq<real>, n: Neighbours) {
    && |zs| == 4
    && zs[0] == (if n.north || n.west || n.nw then DROP else 0.0)
    && zs[1] == (if n.north || n.east || n.ne then DROP else 0.0)
    && zs[2] == (if n.south || n.west || n.sw then DROP else 0.0)
    && zs[3] == (if n.south || n.east || n.se then DROP else 0.0)
  }

  /** The corner depths of a tile that has not been sloped. */
  const FLAT: seq<real> := [0.0, 0.0, 0.0, 0.0]

  /** `slopeTileAdvanced`: raises drop marks for the edges, then the diagonals, then
      writes each corner's depth. The four marks are kept as named locals rather than
      an array of four. */
  method SlopeTileAdvanced(n: Neighbours) returns (zs: seq<real>)
    ensures SlopedFor(zs, n)
  {
    var nw, ne, sw, se := false, false, false, false;
    if n.north { nw, ne := true, true; }
    if n.south { sw, se := true, true; }
    if n.west { nw, sw := true, true; }
    if n.east { ne, se := true, true; }
    if n.nw { nw := true; }
    if n.ne { ne := true; }
    if n.sw { sw := true; }
    if n.se { se := true; }
    var drop := [nw, ne, sw, se];
    zs := [];
    for i := 0 to 4
      invariant |zs| == i
      invariant forall j :: 0 <= j < i ==> zs[j] == (if drop[j] then DROP else 0.0)
    {
      zs := zs + [if drop[i] then DROP else 0.0];
    }
  }

  /** The keys of a group's tiles on one layer, each mapped to a flat tile, laid over
      `m` in order. */
  function Stamped(m: map<TileKey, seq<real>>, group: seq<GroundTile>, layer: int): map<TileKey, seq<real>>
  {
    if |group| == 0 then m
    else
      var n := |group| - 1;
      Stamped(m, group[..n], layer)[TileKey(group[n].tx, group[n].tz, layer) := FLAT]
  }

  /** Laying a group's tiles adds exactly their keys, each with a flat tile, and leaves
      the other keys as they were. */
  lemma {:induction false} StampedKeys(m: map<TileKey, seq<real>>, group: seq<GroundTile>, layer: int, k: TileKey)
    ensures k in Stamped(m, group, layer) <==> k in m || exists t :: t in group && k == TileKey(t.tx, t.tz, layer)
    ensures (exists t :: t in group && k == TileKey(t.tx, t.tz, layer)) ==> Stamped(m, group, layer)[k] == FLAT
    ensures k in m && (forall t :: t in group ==> k != TileKey(t.tx, t.tz, layer)) ==> Stamped(m, group, layer)[k] == m[k]
  {
    if |group| > 0 {
      var n := |group| - 1;
      StampedKeys(m, group[..n], layer, k);
      assert group == group[..n] + [group[n]];
    }
  }

  /** The client's `TileManager`, with the ground groups it pushes onto the world. */
  class TileManager {
    /** `world.groundGroups`: one group of tiles per loaded layer. */
    var groundGroups: seq<seq<GroundTile>>
    /** `tiles`: each tile's corner depths under its key. */
    var tiles: map<TileKey, seq<real>>

    constructor()
      ensures groundGroups == [] && tiles == map[]
    {
      groundGroups := [];
      tiles := map[];
    }

    /** `getTileHeight`: the running maximum over every child of every ground group. */
    method GetTileHeight(tx: int, tz: int) returns (maxY: real)
      ensures maxY == TileHeight(groundGroups, tx, tz)
    {
      maxY := 0.0;
      for g := 0 to |groundGroups|
        invariant maxY == HighestAt(Flatten(groundGroups[..g]), tx, tz)
      {
        var group := groundGroups[g];
        ghost var before := Flatten(groundGroups[..g]);
        assert before + group[..0] == before;
        for c := 0 to |group|
          invariant maxY == HighestAt(before + group[..c], tx, tz)
        {
          var child := group[c];
          assert before + group[..c + 1] == (before + group[..c]) + [child];
          HighestAtSnoc(before + group[..c], child, tx, tz);
          if child.tx == tx && child.tz == tz {
            maxY := MaxHeight(maxY, child.height);
          }
        }
        assert group[..|group|] == group;
        assert groundGroups[..g + 1][..g] == groundGroups[..g];
      }
      assert groundGroups[..|groundGroups|] == groundGroups;
    }

    /** `setupGroundFromCsv` once the grid is read: a flat tile at height
        `layer * LAYER_HEIGHT` on each cell with a material, kept under its key and
        pushed as one new ground group. */
    method SetupGround(cells: seq<seq<Num>>, layer: int)
      modifies this
      ensures groundGroups == old(groundGroups) + [GridTiles(cells, layer as real * LAYER_HEIGHT)]
      ensures tiles == Stamped(old(tiles), GridTiles(cells, layer as real * LAYER_HEIGHT), layer)
    {
      var y := layer as real * LAYER_HEIGHT;
      var group: seq<GroundTile> := [];
      for z := 0 to |cells|
        invariant groundGroups == old(groundGroups)
        invariant group == GridTiles(cells[..z], y)
        invariant tiles == Stamped(old(tiles), group, layer)
      {
        assert cells[..z + 1][..z] == cells[..z];
        ghost var above := group;
        for x := 0 to |cells[z]|
          invariant groundGroups == old(groundGroups)
          invariant group == above + RowTiles(cells[z][..x], z, y)
          invariant tiles == Stamped(old(tiles), group, layer)
        {
          assert cells[z][..x + 1][..x] == cells[z][..x];
          if HasMaterial(cells[z][x]) {
            var tile := GroundTile(x, z, y);
            assert (group + [tile])[..|group|] == group;
            group := group + [tile];
            tiles := tiles[TileKey(x, z, layer) := FLAT];
          }
        }
        assert cells[z][..|cells[z]|] == cells[z];
      }
      assert cells[..|cells|] == cells;
      groundGroups := groundGroups + [group];
    }

    /** `applySlopes`: every upper-layer tile gets the corner depths its lower-layer
        neighbours call for; the other tiles and the set of keys are left alone. */
    method ApplySlopes()
      modifies this
      ensures groundGroups == old(groundGroups) && tiles.Keys == old(tiles).Keys
      ensures forall k :: k in tiles && k.layer == 1 ==> SlopedFor(tiles[k], NeighboursOf(old(tiles).Keys, k.x, k.z))
      ensures forall k :: k in tiles && k.layer != 1 ==> tiles[k] == old(tiles)[k]
    {
      var keys := tiles.Keys;
      var todo := keys;
      while todo != {}
        invariant groundGroups == old(groundGroups)
        invariant todo <= keys && tiles.Keys == keys
        invariant forall k :: k in keys && k !in todo && k.layer == 1 ==> SlopedFor(tiles[k], NeighboursOf(keys, k.x, k.z))
        invariant forall k :: k in keys && (k in todo || k.layer != 1) ==> tiles[k] == old(tiles)[k]
        decreases |todo|
      {
        var k :| k in todo;
        if k.layer == 1 {
          var zs := SlopeTileAdvanced(NeighboursOf(keys, k.x, k.z));
          tiles := tiles[k := zs];
        }
        todo := todo - {k};
      }
    }
  }
}
