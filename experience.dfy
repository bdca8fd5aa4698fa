/** The client's experience curve (`ExperienceUtils`): a table of the experience at which
    each level starts, the level for an amount of experience, and the experience left to
    the next level. The game's levels run from 1 to 99.

    The lookups take the table as the parameter `t`: the source builds its static table
    once (`BuildLevelTable`, whose entries are those of `LevelTable()`) and only reads it afterwards.
    Their properties hold for every `WellFormedTable`, which `LevelTable()` is. */
module ExperienceCurve {
  import opened Common

  /** Failures that the source reports by throwing `Error`. */
  datatype Result<T> = Ok(value: T) | Thrown(message: string)

  const MAX_LEVEL: int := 99

  /** `300 * 2^(r / 7)` for `r` in 0..6, in fixed point (see `FIXED_ONE`), truncated. */
  function ScaledRoot(r: int): (c: int)
    requires 0 <= r < 7
    ensures c >= 300 * FIXED_ONE
  {
    match r
    case 0 => 5033164800
    case 1 => 5557064476
    case 2 => 6135496615
    case 3 => 6774137473
    case 4 => 7479254149
    case 5 => 8257766076
    case _ => 9117312931
  }

  /** 1.0 in the fixed point of `ScaledRoot`: 24 fractional bits. */
  const FIXED_ONE: int := 0x100_0000

  /** `300 * 2^(level / 7)` in the fixed point of `ScaledRoot`: each further 7 levels
      double it. */
  function Growth(level: nat): (g: int)
    ensures g >= 300 * FIXED_ONE
  {
    if level < 7 then ScaledRoot(level) else 2 * Growth(level - 7)
  }

  /** `floor(level + 2^(level / 7) * 300)`, the growth of the curve at `level`, with the
      power of two taken from `Growth`. */
  function Delta(level: nat): int {
    level + Growth(level) / FIXED_ONE
  }

  /** Every growth step is at least 301: `level >= 1` and `2^(level / 7) >= 1`. */
  lemma DeltaAtLeast301(level: nat)
    requires level >= 1
    ensures Delta(level) >= 301
  {

  }

  /** The accumulator of the table-building loop after `n` rounds. */
  function Accumulated(n: int): (acc: int)
    requires 0 <= n <= MAX_LEVEL
    decreases n
  {
    if n == 0 then 0 else Accumulated(n - 1) + Delta(n)
  }

  /** Entry `i` of the table: the experience at which level `i + 2` starts. */
  function LevelExperience(i: int): int
    requires 0 <= i < MAX_LEVEL
  {
    Accumulated(i + 1) / 4
  }

  /** The table-building loop: `acc` collects the growth of levels 1..99 and entry `i`
      is `floor(acc / 4)`. */
  method BuildLevelTable() returns (table: array<int>)
    ensures fresh(table) && table.Length == MAX_LEVEL
    ensures forall i :: 0 <= i < MAX_LEVEL ==> table[i] == LevelExperience(i)
  {
    table := new int[MAX_LEVEL];
    var acc := 0;
    var i := 0;
    while i < MAX_LEVEL
      invariant 0 <= i <= MAX_LEVEL
      invariant acc == Accumulated(i)
      invariant forall k :: 0 <= k < i ==> table[k] == LevelExperience(k)
    {
      acc := acc + Delta(i + 1);
      assert acc == Accumulated(i + 1);
      table[i] := acc / 4;
      i := i + 1;
    }
  }

  lemma {:induction false} AccumulatedGrowth(m: int, n: int)
    requires 0 <= m <= n <= MAX_LEVEL
    ensures Accumulated(n) >= Accumulated(m) + 301 * (n - m)
    decreases n - m
  {
    if m < n {
      AccumulatedGrowth(m, n - 1);
      DeltaAtLeast301(n);
    }
  }

  /** The table `levelExperience`, entry `i` being where level `i + 2` starts. */
  function LevelTable(): (t: seq<int>)
    ensures |t| == MAX_LEVEL
    ensures forall i :: 0 <= i < MAX_LEVEL ==> t[i] == LevelExperience(i)
  {
    seq(MAX_LEVEL, i requires 0 <= i < MAX_LEVEL => LevelExperience(i))
  }

  predicate StrictlyIncreasing(t: seq<int>) {
    forall i, j :: 0 <= i < j < |t| ==> t[i] < t[j]
  }

  /** The table is strictly increasing, and its first entry is positive. */
  lemma LevelExperienceIncreasing(i: int, j: int)
    requires 0 <= i < j < MAX_LEVEL
    ensures 0 < LevelExperience(i) < LevelExperience(j)
  {
    AccumulatedGrowth(0, i + 1);
    AccumulatedGrowth(i + 1, j + 1);
  }

  /** A table the level search can work with: 99 positive, strictly increasing entries. */
  predicate WellFormedTable(t: seq<int>) {
    |t| == MAX_LEVEL && t[0] > 0 && StrictlyIncreasing(t)
  }

  /** Every level costs more experience than the one before it. */
  lemma LevelTableWellFormed()
    ensures WellFormedTable(LevelTable())
  {
    var t := LevelTable();
    LevelExperienceIncreasing(0, 1);
    forall i, j | 0 <= i < j < |t| ensures t[i] < t[j] {
      LevelExperienceIncreasing(i, j);
    }
  }

  /** The descending search of `getLevelByExp` over table `t`, from index `i` down. */
  function LevelFrom(t: seq<int>, exp: int, i: int): (level: int)
    requires -1 <= i < |t| <= MAX_LEVEL
    ensures 1 <= level <= Min(i + 2, MAX_LEVEL)
    decreases i + 1
  {
    if i < 0 then 1
    else if exp >= t[i] then Min(i + 2, MAX_LEVEL)
    else LevelFrom(t, exp, i - 1)
  }

  /** The level `getLevelByExp` returns for `exp` with table `t`. */
  function LevelByExp(t: seq<int>, exp: int): (level: int)
    requires |t| == MAX_LEVEL
    ensures 1 <= level <= MAX_LEVEL
  {
    LevelFrom(t, exp, MAX_LEVEL - 1)
  }

  lemma {:induction false} LevelFromBounds(t: seq<int>, exp: int, i: int)
    requires WellFormedTable(t) && -1 <= i < MAX_LEVEL
    ensures LevelFrom(t, exp, i) == 1 <==> forall k :: 0 <= k <= i ==> exp < t[k]
    ensures LevelFrom(t, exp, i) >= 2 ==> t[LevelFrom(t, exp, i) - 2] <= exp
    ensures LevelFrom(t, exp, i) <= i ==> exp < t[LevelFrom(t, exp, i) - 1]
    decreases i + 1
  {
    if i >= 0 && exp < t[i] {
      LevelFromBounds(t, exp, i - 1);
    }
  }

  /** What `getLevelByExp` returns: a level in 1..99 whose table entry `exp` has reached
      and, below 99, whose successor's entry it has not. */
  lemma LevelByExpCharacterised(t: seq<int>, exp: int)
    requires WellFormedTable(t)
    ensures LevelByExp(t, exp) == 1 <==> exp < t[0]
    ensures LevelByExp(t, exp) >= 2 ==> t[LevelByExp(t, exp) - 2] <= exp
    ensures LevelByExp(t, exp) < MAX_LEVEL ==> exp < t[LevelByExp(t, exp) - 1]
  {
    LevelFromBounds(t, exp, MAX_LEVEL - 1);
  }

  /** More experience never means a lower level. */
  lemma LevelByExpMonotonic(t: seq<int>, e1: int, e2: int)
    requires WellFormedTable(t) && e1 <= e2
    ensures LevelByExp(t, e1) <= LevelByExp(t, e2)
  {
    LevelFromBounds(t, e1, MAX_LEVEL - 1);
    LevelFromBounds(t, e2, MAX_LEVEL - 1);
  }

  /** `getLevelByExp`: scans the table from the top. */
  method GetLevelByExp(t: seq<int>, exp: int) returns (level: int)
    requires |t| == MAX_LEVEL
    ensures level == LevelByExp(t, exp)
  {
    var i := MAX_LEVEL - 1;
    while i >= 0
      invariant -1 <= i < MAX_LEVEL
      invariant LevelFrom(t, exp, i) == LevelFrom(t, exp, MAX_LEVEL - 1)
    {
      if exp >= t[i] {
        return Min(i + 2, MAX_LEVEL);
      }
      i := i - 1;
    }
    return 1;
  }

  /** `getExpForLevel`: throws outside 1..99, level 1 starts at 0 experience, level `l`
      above it at entry `l - 2`. */
  function GetExpForLevel(t: seq<int>, level: int): (r: Result<int>)
    requires |t| == MAX_LEVEL
    ensures r.Ok? <==> 1 <= level <= MAX_LEVEL
    ensures level == 1 ==> r == Ok(0)
  {
    if level < 1 || level > MAX_LEVEL then Thrown("Level must be between 1 and 99.")
    else if level == 1 then Ok(0)
    else Ok(t[level - 2])
  }

  /** Round trip: the experience at which a level starts has exactly that level. */
  lemma LevelOfExpForLevel(t: seq<int>, level: int)
    requires WellFormedTable(t) && 1 <= level <= MAX_LEVEL
    ensures GetExpForLevel(t, level).Ok?
    ensures LevelByExp(t, GetExpForLevel(t, level).value) == level
  {
    var exp := if level == 1 then 0 else t[level - 2];
    LevelFromBounds(t, exp, MAX_LEVEL - 1);
  }

  /** `calculateExperienceDifference`: throws below level 2, otherwise
      `floor((level - 1 + 300 * 2^((level - 1) / 7)) / 4)`. */
  function CalculateExperienceDifference(level: int): (r: Result<int>)
    ensures r.Ok? <==> level >= 2
    ensures r.Ok? ==> r.value >= 75
  {
    if level < 2 then Thrown("Level must be 2 or higher.")
    else
      DeltaAtLeast301(level - 1);
      Ok(Delta(level - 1) / 4)
  }

  /** The difference formula agrees with the built table: the start of `level` lies
      `CalculateExperienceDifference(level)` above the start of `level - 1`, give or take the
      one unit that flooring the running total loses. */
  lemma ExperienceDifferenceMatchesTable(level: int)
    requires 2 <= level <= MAX_LEVEL
    ensures GetExpForLevel(LevelTable(), level).Ok? && GetExpForLevel(LevelTable(), level - 1).Ok?
    ensures CalculateExperienceDifference(level).Ok?
    ensures var step := GetExpForLevel(LevelTable(), level).value - GetExpForLevel(LevelTable(), level - 1).value;
      CalculateExperienceDifference(level).value <= step <= CalculateExperienceDifference(level).value + 1
  {
    var a := Accumulated(level - 2);
    assert Accumulated(level - 1) == a + Delta(level - 1);
    assert a >= 0 by { AccumulatedGrowth(0, level - 2); }
  }

  /** `getExperienceUntilNextLevel`: at level 99 the source asks for level 100 and throws;
      below it, in a well-formed table, the result is the positive distance to the start
      of the next level. */
  function GetExperienceUntilNextLevel(t: seq<int>, exp: int): (r: Result<int>)
    requires |t| == MAX_LEVEL
    ensures r.Ok? <==> LevelByExp(t, exp) < MAX_LEVEL
    ensures WellFormedTable(t) && r.Ok? ==>
      r.value > 0 && LevelByExp(t, exp + r.value) == LevelByExp(t, exp) + 1
  {
    var next := GetExpForLevel(t, LevelByExp(t, exp) + 1);
    if next.Thrown? then Thrown(next.message)
    else
      if WellFormedTable(t) then NextLevelAhead(t, exp); Ok(next.value - exp)
      else Ok(next.value - exp)
  }

  lemma NextLevelAhead(t: seq<int>, exp: int)
    requires WellFormedTable(t) && LevelByExp(t, exp) < MAX_LEVEL
    ensures var next := t[LevelByExp(t, exp) - 1];
      next > exp && LevelByExp(t, next) == LevelByExp(t, exp) + 1
  {
    LevelByExpCharacterised(t, exp);
    LevelOfExpForLevel(t, LevelByExp(t, exp) + 1);
  }
}
