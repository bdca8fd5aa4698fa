/** The server's combatants (`Entity` and `Combatant`): tile position and movement along a
    path, targets, combat counters, attacks and experience, each change raising the
    matching `*Changed` flag that decides what the next game-state snapshot carries.

    Every entity of the game is a combatant, so the two Java classes are one class here.
    `Player` and `Npc` hold one (see `Players.Player.body` and `Npcs.Npc.body`); the
    `instanceof Player` / `instanceof Npc` tests become the `kind` of the body.

    The operations are specified by functions on `State`, the value of all mutable fields;
    the methods of `Combatant` are proved to take `View()` from `s` to `F(s)`, and what
    the source promises is proved about `F`.

    The parameter `levels` of the experience operations is the server's level table; its
    `ExperienceUtils` is not part of this model, and a level is looked up in it as the
    client's `getLevelByExp` does (`ExperienceCurve.LevelByExp`). */
module Entities {
  import opened Common
  import opened Movement
  import opened Events
  import ExperienceCurve
  import Tiles
  import Pathfinding

  /** A player, with the username its chat messages are sent under, or an NPC. */
  datatype Kind = PlayerKind(username: string) | NpcKind

  /** Skill indices of `SkillUtils` (not part of this model), in the order the player's
      database row is loaded; `resetNpc` reads the hitpoints experience at index 3. */
  const ATTACK: int := 0
  const STRENGTH: int := 1
  const DEFENCE: int := 2
  const HITPOINTS: int := 3

  /** No skill is kept above this much experience. */
  const MAX_SKILL_XP: int := 200_000_000
  /** Ticks between attacks without a weapon that says otherwise. */
  const DEFAULT_ATTACK_SPEED: int := 4
  /** Ticks a hit combatant stays in combat. */
  const IN_COMBAT_TICKS: int := 20
  /** Ticks an attacker waits before following its target again. */
  const FOLLOW_DELAY: int := 2
  /** The dying counter value after which a dying combatant is reset. */
  const DYING_TICKS: int := 5

  /** The `*Changed` flags of `Entity` (the first 18) and `Combatant` (the other 11). A
      flag in an entity's `changed` set is the Java value 1. */
  datatype Flag =
    | EntityIDChanged | WorldXChanged | WorldYChanged | FacingDirectionChanged
    | TargetTileChanged | NewTargetTileChanged | NextTileDirectionChanged | CurrentPathChanged
    | TargetEntityLastPositionChanged | FollowCounterChanged | ShouldFollowChanged
    | DyingCounterChanged | TargetItemIDChanged | InteractionTargetIDChanged | GoalActionChanged
    | WanderRangeChanged | InteractionRangeChanged | IsDyingChanged
    | SkillsChanged | CurrentHitpointsChanged | TargetedEntityIDChanged | LastDamageDealtChanged
    | LastDamageDealtCounterChanged | AttackTickCounterChanged | IsInCombatCounterChanged
    | AttackStyleChanged | WeaponChanged | ShieldChanged | IsInCombatChanged

  /** Every flag raised: the state of a new entity. */
  const ALL_FLAGS: set<Flag> := {
    EntityIDChanged, WorldXChanged, WorldYChanged, FacingDirectionChanged,
    TargetTileChanged, NewTargetTileChanged, NextTileDirectionChanged, CurrentPathChanged,
    TargetEntityLastPositionChanged, FollowCounterChanged, ShouldFollowChanged,
    DyingCounterChanged, TargetItemIDChanged, InteractionTargetIDChanged, GoalActionChanged,
    WanderRangeChanged, InteractionRangeChanged, IsDyingChanged,
    SkillsChanged, CurrentHitpointsChanged, TargetedEntityIDChanged, LastDamageDealtChanged,
    LastDamageDealtCounterChanged, AttackTickCounterChanged, IsInCombatCounterChanged,
    AttackStyleChanged, WeaponChanged, ShieldChanged, IsInCombatChanged }

  /** The mutable fields of a combatant. A `null` of the source is `None`; a path is the
      sequence of its nodes' tiles. */
  datatype State = State(
    worldX: int, worldY: int,
    nextTileDirection: Option<Direction>, facingDirection: Option<Direction>,
    currentPath: Option<seq<Pos>>,
    targetTile: Option<Pos>, newTargetTile: Option<Pos>, targetEntityLastPosition: Option<Pos>,
    followCounter: int, shouldFollow: int, dyingCounter: int,
    targetItemID: Option<string>, interactionTargetID: Option<string>,
    goalAction: Option<GoalAction>, wanderRange: int, interactionRange: int, isDying: bool,
    skills: seq<int>, currentHitpoints: int, weapon: int, shield: int, lastDamageDealt: int,
    attackStyle: Option<string>, isInCombat: bool, targetedEntityID: Option<string>,
    lastDamageDealtCounter: int, attackTickCounter: int, isInCombatCounter: int,
    changed: set<Flag>)

  function PositionOf(s: State): Pos {
    Pos(s.worldX, s.worldY)
  }

  /** `getTarget`: the new target tile while there is one, else the current one. */
  function TargetOf(s: State): Option<Pos> {
    if s.newTargetTile.Some? then s.newTargetTile else s.targetTile
  }

  /** `move`: the entity stands on `p`; both coordinate flags are raised even when a
      coordinate keeps its value. */
  function Located(s: State, p: Pos): (r: State)
    ensures PositionOf(r) == p
    ensures WorldXChanged in r.changed && WorldYChanged in r.changed
  {
    s.(worldX := p.x, worldY := p.y, changed := s.changed + {WorldXChanged, WorldYChanged})
  }

  /** `moveToNextTile`: one tile in `nextTileDirection` if it is orthogonal; a diagonal or
      `NONE` leaves the entity where it is. */
  function Stepped(s: State): (r: State)
    requires s.nextTileDirection.Some?
    ensures var d := s.nextTileDirection.value;
      Manhattan(PositionOf(s), PositionOf(r)) == (if d in {Up, Down, Left, Right} then 1 else 0)
    ensures PositionOf(r) == StepFrom(PositionOf(s), s.nextTileDirection.value)
    ensures r == s || r == Located(s, PositionOf(r))
    ensures r.skills == s.skills
  {
    var d := s.nextTileDirection.value;
    if d in {Up, Down, Left, Right} then Located(s, StepFrom(PositionOf(s), d)) else s
  }

  /** `stopAllMovement` */
  function Stopped(s: State): (r: State)
    ensures TargetOf(r).None? && r.nextTileDirection == Some(NoDir)
    ensures PositionOf(r) == PositionOf(s) && r.currentPath == s.currentPath
  {
    s.(newTargetTile := None, targetTile := None, nextTileDirection := Some(NoDir),
       changed := s.changed + {NewTargetTileChanged, TargetTileChanged, NextTileDirectionChanged})
  }

  /** `clearTarget` */
  function TargetCleared(s: State): (r: State)
    ensures r.targetedEntityID.None? && TargetOf(r).None?
    ensures r.nextTileDirection == s.nextTileDirection && PositionOf(r) == PositionOf(s)
  {
    s.(targetedEntityID := None, targetTile := None, newTargetTile := None,
       changed := s.changed + {TargetedEntityIDChanged, TargetTileChanged, NewTargetTileChanged})
  }

  /** The four tiles `getPositionOneTileAwayFromTarget` tries around `t`, in its order:
      up, right, down, left. */
  function AroundTarget(t: Pos): (r: seq<Pos>)
    ensures |r| == 4 && forall i :: 0 <= i < 4 ==> Manhattan(r[i], t) == 1
  {
    [Pos(t.x, t.y - 1), Pos(t.x + 1, t.y), Pos(t.x, t.y + 1), Pos(t.x - 1, t.y)]
  }

  /** A tile to approach from: `getTileByXandY` knows it and it does not block. */
  predicate Approachable(m: Tiles.TileMap, p: Pos)
    requires Tiles.Valid(m)
  {
    var tile := Tiles.TileAt(m, p.x, p.y);
    tile.Some? && !tile.value.collision
  }

  /** The squared Euclidean distance, which orders tiles as the `Math.sqrt` distance of
      the source does. */
  function SquaredDistance(a: Pos, b: Pos): nat {
    (a.x - b.x) * (a.x - b.x) + (a.y - b.y) * (a.y - b.y)
  }

  /** What `getPositionOneTileAwayFromTarget` may answer for an entity at `from`: `null`
      exactly when none of the four tiles around `t` is approachable, and otherwise one of
      them that is approachable and no farther from `from` than any other approachable
      one. Only a tie between equally near tiles is left to chance. */
  ghost predicate IsApproach(m: Tiles.TileMap, from: Pos, t: Pos, approach: Option<Pos>)
    requires Tiles.Valid(m)
  {
    var around := AroundTarget(t);
    && (approach.None? <==> forall i :: 0 <= i < 4 ==> !Approachable(m, around[i]))
    && (approach.Some? ==>
          && approach.value in around && Approachable(m, approach.value)
          && forall i :: 0 <= i < 4 && Approachable(m, around[i]) ==>
               SquaredDistance(from, approach.value) <= SquaredDistance(from, around[i]))
  }

  /** `getPositionOneTileAwayFromTarget`: the four tiles around `t` in turn, keeping the
      approachable one nearest to `from`. `coins[i]` is whether the source's
      `Math.random() > 0.5` comes out true at the `i`-th tile, which lets a tile as near
      as the one kept replace it. `None` for the least distance stands for
      `Double.MAX_VALUE`. */
  method GetPositionOneTileAwayFromTarget(m: Tiles.TileMap, from: Pos, t: Pos, coins: seq<bool>)
    returns (closest: Option<Pos>)
    requires Tiles.Valid(m) && |coins| == 4
    ensures IsApproach(m, from, t, closest)
  {
    var around := AroundTarget(t);
    closest := None;
    var minDistance: Option<nat> := None;
    for i := 0 to 4
      invariant closest.None? <==> minDistance.None?
      invariant closest.None? <==> forall j :: 0 <= j < i ==> !Approachable(m, around[j])
      invariant closest.Some? ==>
        && closest.value in around && Approachable(m, closest.value)
        && minDistance == Some(SquaredDistance(from, closest.value))
      invariant closest.Some? ==> forall j :: 0 <= j < i && Approachable(m, around[j]) ==>
        minDistance.value <= SquaredDistance(from, around[j])
    {
      var tile := around[i];
      var current := Tiles.TileAt(m, tile.x, tile.y);
      if current.Some? && !current.value.collision {
        var distance := SquaredDistance(from, tile);
        if minDistance.None? || distance < minDistance.value {
          minDistance := Some(distance);
          closest := Some(tile);
        }
        if minDistance == Some(distance) && coins[i] {
          closest := Some(tile);
        }
      }
    }
  }

  /** `setAttackTargetTile`. `seen` is the tile of the targeted entity, `None` when the
      world has no entity with that id; `approach` is what
      `getPositionOneTileAwayFromTarget` answers for it (see `IsApproach`, which the
      methods that call this require of it). A target that has not moved since it was
      last seen changes nothing. */
  function Retargeted(s: State, seen: Option<Pos>, approach: Option<Pos>): (r: State)
    ensures seen.None? ==> r == s.(targetedEntityID := None, changed := s.changed + {TargetedEntityIDChanged})
    ensures seen.Some? && s.targetEntityLastPosition == seen ==> r == s
    ensures seen.Some? && s.targetEntityLastPosition != seen ==>
      r.targetEntityLastPosition == seen && r.newTargetTile == approach
    ensures r.skills == s.skills
  {
    if seen.None? then s.(targetedEntityID := None, changed := s.changed + {TargetedEntityIDChanged})
    else if s.targetEntityLastPosition == seen then s
    else s.(targetEntityLastPosition := seen, newTargetTile := approach,
            changed := s.changed + {TargetEntityLastPositionChanged, NewTargetTileChanged})
  }

  /** Two-argument `moveAlongPath`: heads for the step after `next`, facing that way, and
      drops the first node of the path. The path flag is not raised. */
  function AlongPath(s: State, next: Pos, nextNext: Pos): (r: State)
    requires s.currentPath.Some? && |s.currentPath.value| >= 1
    ensures r.currentPath == Some(s.currentPath.value[1..])
    ensures r.nextTileDirection == r.facingDirection == GetDirection(nextNext.x - next.x, nextNext.y - next.y)
    ensures PositionOf(r) == PositionOf(s) && TargetOf(r) == TargetOf(s)
  {
    var d := GetDirection(nextNext.x - next.x, nextNext.y - next.y);
    s.(nextTileDirection := d, facingDirection := d, currentPath := Some(s.currentPath.value[1..]),
       changed := s.changed + {NextTileDirectionChanged, FacingDirectionChanged})
  }

  /** One-argument `moveAlongPath`, the last step: no next direction, no target tile and no
      path. Only the direction and target flags are raised. */
  function PathFinished(s: State): (r: State)
    ensures r.nextTileDirection == Some(NoDir) && r.targetTile.None? && r.currentPath.None?
    ensures PositionOf(r) == PositionOf(s) && r.newTargetTile == s.newTargetTile
  {
    s.(nextTileDirection := Some(NoDir), targetTile := None, currentPath := None,
       changed := s.changed + {NextTileDirectionChanged, TargetTileChanged})
  }

  /** The path-finding part of `moveTowardsTarget` once the pending step has been taken and
      the attack target re-seen: a new target takes the path `found` (the path-finder's
      answer from the current tile to the target), a known one is followed one node.
      The second component is the item a player reaching its last node picks up. */
  function Pursued(s: State, kind: Kind, found: seq<Pos>): (r: (State, Option<string>))
    ensures TargetOf(s).None? ==> r == (s, None)
    ensures TargetOf(s).Some? && s.newTargetTile.Some? && |found| < 2 ==>
      r.0 == Stopped(s.(currentPath := None)) && r.1.None?
    ensures TargetOf(s).Some? && s.newTargetTile.Some? && |found| >= 2 ==>
      && r.0.targetTile == s.newTargetTile && r.0.newTargetTile.None?
      && r.0.currentPath == Some(found)
      && r.0.nextTileDirection == r.0.facingDirection
      && r.0.nextTileDirection == GetDirection(found[1].x - s.worldX, found[1].y - s.worldY)
      && r.1.None?
    ensures PositionOf(r.0) == PositionOf(s)
    ensures r.1.Some? ==> kind.PlayerKind? && r.1 == s.targetItemID && r.0.targetItemID.None?
    ensures r.0.skills == s.skills
  {
    var target := TargetOf(s);
    if target.None? then (s, None)
    else if s.newTargetTile.Some? then
      if |found| < 2 then (Stopped(s.(currentPath := None)), None)
      else
        var d := GetDirection(found[1].x - s.worldX, found[1].y - s.worldY);
        (s.(currentPath := Some(found), targetTile := s.newTargetTile, newTargetTile := None,
            nextTileDirection := d, facingDirection := d,
            changed := s.changed + {TargetTileChanged, NewTargetTileChanged, NextTileDirectionChanged, FacingDirectionChanged}),
         None)
    else if s.currentPath.None? || |s.currentPath.value| == 0 then (s, None)
    else if |s.currentPath.value| == 1 then (Stopped(s), None)
    else if |s.currentPath.value| == 2 then
      var last := PathFinished(s);
      if s.targetItemID.Some? && kind.PlayerKind? then
        (last.(targetItemID := None, changed := last.changed + {TargetItemIDChanged}), s.targetItemID)
      else (last, None)
    else
      (AlongPath(s, s.currentPath.value[1], s.currentPath.value[2]), None)
  }

  /** `moveTowardsTarget`: take the pending step, re-see the attack target, then pursue the
      target. `seen`, `approach` and `found` are what the world, the tile manager and the
      path-finder answer at the points where the source asks them. */
  function TowardsTarget(s: State, kind: Kind, seen: Option<Pos>, approach: Option<Pos>,
                         found: seq<Pos>): (r: (State, Option<string>))
    ensures r.0.skills == s.skills
  {
    var s1 := if s.nextTileDirection.Some? then Stepped(s) else s;
    var s2 := if s1.targetedEntityID.Some? then Retargeted(s1, seen, approach) else s1;
    Pursued(s2, kind, found)
  }

  /** The answers `moveTowardsTarget` gets for the state `s`: the tile beside a target
      seen somewhere new is one `getPositionOneTileAwayFromTarget` may pick for the tile
      the entity stands on after its pending step, and the path of a new target is one
      `findPath` may return from that tile. */
  ghost predicate TowardsTargetAnswers(m: Tiles.TileMap, s: State, seen: Option<Pos>, approach: Option<Pos>,
                                       found: seq<Pos>)
    requires Tiles.Valid(m)
  {
    var s1 := if s.nextTileDirection.Some? then Stepped(s) else s;
    var s2 := if s1.targetedEntityID.Some? then Retargeted(s1, seen, approach) else s1;
    && (s1.targetedEntityID.Some? && seen.Some? && s1.targetEntityLastPosition != seen ==>
          IsApproach(m, PositionOf(s1), seen.value, approach))
    && (TargetOf(s2).Some? && s2.newTargetTile.Some? ==>
          Pathfinding.PathFound(m, PositionOf(s2), TargetOf(s2).value, found))
  }

  /** A path the entity can follow tile by tile: consecutive nodes are orthogonal
      neighbours. */
  predicate OrthogonalSteps(path: seq<Pos>) {
    forall i :: 0 <= i < |path| - 1 ==> Manhattan(path[i], path[i + 1]) == 1
  }

  /** An entity walking an established path with no new target and no entity to chase:
      it stands on the first node and its next direction points at the second. */
  predicate Following(s: State) {
    && s.currentPath.Some? && |s.currentPath.value| >= 2
    && s.currentPath.value[0] == PositionOf(s)
    && s.nextTileDirection == GetDirection(s.currentPath.value[1].x - s.worldX,
                                           s.currentPath.value[1].y - s.worldY)
    && s.newTargetTile.None? && s.targetTile.Some? && s.targetedEntityID.None?
  }

  /** Walking a path: each `moveTowardsTarget` moves the entity onto the next node of an
      orthogonal path and keeps it following the rest, until the last node, where the
      path and target are dropped. */
  lemma {:induction false} FollowingAdvancesOneNode(s: State, kind: Kind, seen: Option<Pos>,
                                                    approach: Option<Pos>, found: seq<Pos>)
    requires Following(s) && OrthogonalSteps(s.currentPath.value)
    ensures var r := TowardsTarget(s, kind, seen, approach, found).0;
      var path := s.currentPath.value;
      && PositionOf(r) == path[1]
      && (|path| > 2 ==> Following(r) && r.currentPath == Some(path[1..]))
      && (|path| == 2 ==> r.currentPath.None? && r.targetTile.None? && r.nextTileDirection == Some(NoDir))
  {
    var path := s.currentPath.value;
    var delta := Pos(path[1].x - s.worldX, path[1].y - s.worldY);
    assert Manhattan(path[0], path[1]) == 1;
    assert Abs(delta.x) + Abs(delta.y) == 1;
    var d := s.nextTileDirection.value;
    assert StepOffset(d) == delta;
    var s1 := Stepped(s);
    assert PositionOf(s1) == path[1];
    if |path| > 2 {
      assert Manhattan(path[1], path[2]) == 1;
    }
  }

  /** A path step that is not an orthogonal neighbour (the diagonal steps the path-finder
      allows) yields no direction, so the entity stays where it is on that tick while the
      path still moves on. */
  lemma DiagonalStepStalls(s: State, kind: Kind, seen: Option<Pos>, approach: Option<Pos>,
                           found: seq<Pos>)
    requires Following(s)
    requires Manhattan(s.currentPath.value[0], s.currentPath.value[1]) != 1
    ensures s.nextTileDirection.None?
    ensures PositionOf(TowardsTarget(s, kind, seen, approach, found).0) == PositionOf(s)
  {
  }

  /** The step counters of `updateCounters` shared by players and NPCs: each positive
      counter goes down by one; a damage marker whose counter has run out is reset to -1,
      and a combatant whose combat counter has run out leaves combat. */
  function CountersTicked(s: State): (r: State)
    ensures r.attackTickCounter == (if s.attackTickCounter > 0 then s.attackTickCounter - 1 else s.attackTickCounter)
    ensures r.lastDamageDealtCounter == (if s.lastDamageDealtCounter > 0 then s.lastDamageDealtCounter - 1 else s.lastDamageDealtCounter)
    ensures r.isInCombatCounter == (if s.isInCombatCounter > 0 then s.isInCombatCounter - 1 else s.isInCombatCounter)
    ensures s.lastDamageDealtCounter <= 0 ==> r.lastDamageDealt == -1
    ensures s.lastDamageDealtCounter > 0 ==> r.lastDamageDealt == s.lastDamageDealt
    ensures s.isInCombatCounter <= 0 ==> !r.isInCombat
    ensures s.isInCombatCounter > 0 ==> r.isInCombat == s.isInCombat
    ensures PositionOf(r) == PositionOf(s) && r.isDying == s.isDying && r.dyingCounter == s.dyingCounter
    ensures r.skills == s.skills && r.interactionTargetID == s.interactionTargetID
  {
    var s1 := if s.attackTickCounter > 0
      then s.(attackTickCounter := s.attackTickCounter - 1, changed := s.changed + {AttackTickCounterChanged})
      else s;
    var s2 := if s1.lastDamageDealtCounter > 0
      then s1.(lastDamageDealtCounter := s1.lastDamageDealtCounter - 1, changed := s1.changed + {LastDamageDealtCounterChanged})
      else if s1.lastDamageDealt != -1
      then s1.(lastDamageDealt := -1, changed := s1.changed + {LastDamageDealtChanged})
      else s1;
    if s2.isInCombatCounter > 0
      then s2.(isInCombatCounter := s2.isInCombatCounter - 1, changed := s2.changed + {IsInCombatCounterChanged})
      else if s2.isInCombat
      then s2.(isInCombat := false, changed := s2.changed + {IsInCombatChanged})
      else s2
  }

  /** Counters that start non-negative stay non-negative. */
  predicate CountersNonNegative(s: State) {
    s.attackTickCounter >= 0 && s.lastDamageDealtCounter >= 0 && s.isInCombatCounter >= 0
  }

  lemma CountersStayNonNegative(s: State)
    requires CountersNonNegative(s)
    ensures CountersNonNegative(CountersTicked(s))
  {
  }

  /** The respawn of `resetNpc`, also the second half of `resetPlayer`: full hitpoints
      `hitpoints`, back on the spawn tile, no target, path, goal or combat, every counter
      at rest. */
  function Respawned(s: State, origin: Pos, hitpoints: int): (r: State)
    ensures PositionOf(r) == origin && r.currentHitpoints == hitpoints
    ensures TargetOf(r).None? && r.targetedEntityID.None? && r.targetItemID.None?
    ensures r.currentPath.None? && r.nextTileDirection == Some(NoDir) && r.goalAction.None?
    ensures !r.isInCombat && r.isInCombatCounter == 0 && r.attackTickCounter == 0
    ensures r.lastDamageDealt == -1 && r.lastDamageDealtCounter == 0
    ensures r.skills == s.skills && r.isDying == s.isDying && r.dyingCounter == s.dyingCounter
  {
    Cleared(Located(s.(currentHitpoints := hitpoints, changed := s.changed + {CurrentHitpointsChanged}), origin))
  }

  /** The clearing half of `resetNpc`: no target, item, path, step, goal or combat. */
  function Cleared(s: State): (r: State)
    ensures PositionOf(r) == PositionOf(s) && r.currentHitpoints == s.currentHitpoints
    ensures TargetOf(r).None? && r.targetedEntityID.None? && r.targetItemID.None?
    ensures r.currentPath.None? && r.nextTileDirection == Some(NoDir) && r.goalAction.None?
    ensures !r.isInCombat && r.isInCombatCounter == 0 && r.attackTickCounter == 0
    ensures r.lastDamageDealt == -1 && r.lastDamageDealtCounter == 0
    ensures r.skills == s.skills && r.isDying == s.isDying && r.dyingCounter == s.dyingCounter
  {
    s.(targetTile := None, newTargetTile := None, targetedEntityID := None, targetItemID := None,
       isInCombatCounter := 0, lastDamageDealt := -1, lastDamageDealtCounter := 0,
       attackTickCounter := 0, currentPath := None, nextTileDirection := Some(NoDir),
       goalAction := None, isInCombat := false,
       changed := s.changed + {TargetTileChanged, NewTargetTileChanged, TargetedEntityIDChanged, TargetItemIDChanged,
                               IsInCombatCounterChanged, LastDamageDealtChanged, LastDamageDealtCounterChanged,
                               AttackTickCounterChanged, CurrentPathChanged, NextTileDirectionChanged,
                               GoalActionChanged, IsInCombatChanged})
  }

  /** The new value of a skill after `xp` more experience, kept at or below
      `MAX_SKILL_XP`. This is the intended arithmetic; `GainedXpAsWritten` is the 32-bit
      arithmetic of the source. */
  function GainedXp(current: int, xp: int): (r: int)
    ensures r <= MAX_SKILL_XP
    ensures current + xp <= MAX_SKILL_XP ==> r == current + xp
    ensures current + xp > MAX_SKILL_XP ==> r == MAX_SKILL_XP
  {
    Min(current + xp, MAX_SKILL_XP)
  }

  /** `skills[skill] += xp` followed by the cap, in Java `int` arithmetic: the sum wraps
      before it is compared with the cap. */
  function GainedXpAsWritten(current: int, xp: int): (r: int)
    ensures IsInt32(r) && r <= MAX_SKILL_XP
  {
    var sum := Wrap32(current + xp);
    if sum > MAX_SKILL_XP then MAX_SKILL_XP else sum
  }

  /** A skill at the cap that gains 1,947,483,648 experience wraps to -2,147,483,648:
      the source's check never sees a value above the cap, and the skill loses all of its
      experience. The intended arithmetic keeps it at the cap. */
  lemma GainedXpAsWrittenWraps()
    ensures GainedXpAsWritten(MAX_SKILL_XP, 1_947_483_648) == INT_MIN
    ensures GainedXp(MAX_SKILL_XP, 1_947_483_648) == MAX_SKILL_XP
  {
  }

  /** Every sum of two 32-bit values that stays below the cap agrees in both readings. */
  lemma GainedXpAgreesBelowCap(current: int, xp: int)
    requires IsInt32(current) && IsInt32(xp) && IsInt32(current + xp)
    ensures GainedXpAsWritten(current, xp) == GainedXp(current, xp)
  {
  }

  /** The sound `addXp` plays for a level-up in `skill`: only the four combat skills
      have one. */
  function LevelUpSounds(skill: int, entityID: string): (r: seq<SoundEvent>)
    ensures |r| == (if ATTACK <= skill <= HITPOINTS then 1 else 0)
    ensures forall e :: e in r ==> e.entityID == entityID && e.isSfx && e.shouldInterrupt && !e.isGlobal
  {
    if skill == ATTACK then [SoundEvent("attack_level_up.ogg", true, true, entityID, false)]
    else if skill == STRENGTH then [SoundEvent("strength_level_up.ogg", true, true, entityID, false)]
    else if skill == DEFENCE then [SoundEvent("defence_level_up.ogg", true, true, entityID, false)]
    else if skill == HITPOINTS then [SoundEvent("hitpoints_level_up.ogg", true, true, entityID, false)]
    else []
  }

  /** The state part of `addXp(skill, xp)` for `xp > 0`: only that skill changes, to
      `GainedXp` of its experience, and the skills flag is raised. */
  function SkillGained(s: State, skill: int, xp: int): (r: State)
    requires 0 <= skill < |s.skills|
    ensures |r.skills| == |s.skills| && r.skills[skill] == GainedXp(s.skills[skill], xp)
    ensures forall i :: 0 <= i < |s.skills| && i != skill ==> r.skills[i] == s.skills[i]
    ensures r == s.(skills := r.skills, changed := s.changed + {SkillsChanged})
  {
    s.(skills := s.skills[skill := GainedXp(s.skills[skill], xp)], changed := s.changed + {SkillsChanged})
  }

  /** The event part of `addXp`: a private congratulation and the skill's sound when the
      experience `total`, taken before the cap, is at a higher level than `previous`. */
  function LevelUpAnnounced(levels: seq<int>, ev: Log, username: string, entityID: string, skill: int,
                            previous: int, total: int, now: int): (r: Log)
    requires |levels| == ExperienceCurve.MAX_LEVEL
    ensures r.attacks == ev.attacks
    ensures r != ev <==> ExperienceCurve.LevelByExp(levels, total) > ExperienceCurve.LevelByExp(levels, previous)
    ensures r != ev ==>
      && r.chat == ev.chat + [ChatMessage(username, LevelUp(skill, ExperienceCurve.LevelByExp(levels, total)), now, false)]
      && r.sounds == ev.sounds + LevelUpSounds(skill, entityID)
  {
    var before := ExperienceCurve.LevelByExp(levels, previous);
    var after := ExperienceCurve.LevelByExp(levels, total);
    if after > before then
      var chat := ev.chat + [ChatMessage(username, LevelUp(skill, after), now, false)];
      assert |chat| > |ev.chat|;
      ev.(chat := chat, sounds := ev.sounds + LevelUpSounds(skill, entityID))
    else ev
  }

  /** `addXp(skill, xp)` of a player for `xp > 0`, on its state and the tick's events. */
  function XpAdded(levels: seq<int>, s: State, username: string, entityID: string, ev: Log, skill: int, xp: int,
                   now: int): (r: (State, Log))
    requires |levels| == ExperienceCurve.MAX_LEVEL && 0 <= skill < |s.skills|
  {
    (SkillGained(s, skill, xp),
     LevelUpAnnounced(levels, ev, username, entityID, skill, s.skills[skill], s.skills[skill] + xp, now))
  }

  /** More experience never lowers a level, so a gain is announced exactly when it crosses
      into a new level, and a gain that stays within one level is silent. */
  lemma GainAnnouncedIffLevelCrossed(levels: seq<int>, s: State, username: string, entityID: string, ev: Log,
                                     skill: int, xp: int, now: int)
    requires ExperienceCurve.WellFormedTable(levels)
    requires 0 <= skill < |s.skills| && xp > 0
    ensures var before := ExperienceCurve.LevelByExp(levels, s.skills[skill]);
      var after := ExperienceCurve.LevelByExp(levels, s.skills[skill] + xp);
      && before <= after
      && (XpAdded(levels, s, username, entityID, ev, skill, xp, now).1 == ev <==> before == after)
  {
    ExperienceCurve.LevelByExpMonotonic(levels, s.skills[skill], s.skills[skill] + xp);
  }

  /** The skill an attack style trains besides hitpoints; other styles train none. */
  function StyleSkill(style: string): (skill: Option<int>)
    ensures skill.Some? <==> style in {"attack", "strength", "defence"}
    ensures skill.Some? ==> ATTACK <= skill.value <= DEFENCE
  {
    if style == "attack" then Some(ATTACK)
    else if style == "strength" then Some(STRENGTH)
    else if style == "defence" then Some(DEFENCE)
    else None
  }

  /** The experience a player attacker earns for a hit of `damage`: four per point in the
      style's skill, then one per point in hitpoints; a hit of zero earns nothing. */
  function CombatXpAdded(levels: seq<int>, s: State, username: string, entityID: string, ev: Log, damage: int,
                         now: int): (r: (State, Log))
    requires |levels| == ExperienceCurve.MAX_LEVEL
    requires s.attackStyle.Some? && |s.skills| > HITPOINTS && damage >= 0
    ensures |r.0.skills| == |s.skills| && r.1.attacks == ev.attacks
    ensures |r.1.sounds| >= |ev.sounds| && r.1.sounds[..|ev.sounds|] == ev.sounds
    ensures damage > 0 ==> r.0.skills[HITPOINTS] == GainedXp(s.skills[HITPOINTS], damage)
    ensures damage > 0 && StyleSkill(s.attackStyle.value).Some? ==>
      var k := StyleSkill(s.attackStyle.value).value;
      r.0.skills[k] == GainedXp(s.skills[k], 4 * damage)
    ensures forall i :: 0 <= i < |s.skills| && i != HITPOINTS && Some(i) != StyleSkill(s.attackStyle.value) ==>
      r.0.skills[i] == s.skills[i]
    ensures damage == 0 ==> r == (s, ev)
    ensures r.0 == s.(skills := r.0.skills, changed := r.0.changed)
  {
    if damage == 0 then (s, ev)
    else
      var style := StyleSkill(s.attackStyle.value);
      var (s1, ev1) := if style.Some? then XpAdded(levels, s, username, entityID, ev, style.value, 4 * damage, now)
                       else (s, ev);
      XpAdded(levels, s1, username, entityID, ev1, HITPOINTS, damage, now)
  }

  /** The attacker's facing towards the tile it attacks; unchanged on the same tile. */
  function Faced(s: State, to: Pos): (r: State)
    ensures FacingTowards(PositionOf(s), to).Some? ==>
      r == s.(facingDirection := FacingTowards(PositionOf(s), to), changed := s.changed + {FacingDirectionChanged})
    ensures FacingTowards(PositionOf(s), to).None? ==> r == s
  {
    match FacingTowards(PositionOf(s), to)
    case Some(d) => s.(facingDirection := Some(d), changed := s.changed + {FacingDirectionChanged})
    case None => s
  }

  /** The combatant `attackEntity` works on: who it is and what it is. */
  datatype Side = Side(id: string, kind: Kind, state: State)

  /** `killPlayer`, the state part: dying, no target, no next step. */
  function PlayerKilled(s: State): (r: State)
    ensures r.isDying && TargetOf(r).None? && r.nextTileDirection == Some(NoDir)
    ensures PositionOf(r) == PositionOf(s) && r.currentHitpoints == s.currentHitpoints
  {
    Stopped(s.(isDying := true, changed := s.changed + {IsDyingChanged}))
  }

  /** Whether `attackEntity` does nothing: an attack on oneself, an attacker still
      cooling down, or a target that is already dying. */
  predicate AttackRefused(a: Side, t: Side) {
    a.id == t.id || a.state.attackTickCounter != 0 || t.state.isDying
  }

  /** The precondition of an attack the source can carry out without throwing: a player
      attacker has an attack style and the four combat skills. The damage bound keeps
      the experience `4 * damage` within a Java `int`. */
  predicate CanAttack(a: Side, damage: int) {
    && 0 <= damage <= INT_MAX / 4
    && (a.kind.PlayerKind? ==> a.state.attackStyle.Some? && |a.state.skills| > HITPOINTS)
  }

  /** The attack cooldown: the weapon's attack speed, or 4 without weapon data. */
  function Cooldown(weaponSpeed: Option<int>): int {
    if weaponSpeed.Some? then weaponSpeed.value else DEFAULT_ATTACK_SPEED
  }

  /** The attacker as it swings: facing the target's tile, cooling down. */
  function Swung(s: State, to: Pos, weaponSpeed: Option<int>): (r: State)
    ensures r.attackTickCounter == Cooldown(weaponSpeed)
    ensures FacingTowards(PositionOf(s), to).Some? ==> r.facingDirection == FacingTowards(PositionOf(s), to)
    ensures FacingTowards(PositionOf(s), to).None? ==> r.facingDirection == s.facingDirection
    ensures PositionOf(r) == PositionOf(s) && r.skills == s.skills && r.attackStyle == s.attackStyle
  {
    var f := Faced(s, to);
    f.(attackTickCounter := Cooldown(weaponSpeed), changed := f.changed + {AttackTickCounterChanged})
  }

  /** The target as it is hit for `damage`: its hitpoints drop in Java `int` arithmetic and
      are clamped at zero, and it is marked as hit and in combat. */
  function Hit(s: State, damage: int): (r: State)
    ensures r.currentHitpoints == Max(0, Wrap32(s.currentHitpoints - damage))
    ensures r.lastDamageDealt == damage && r.lastDamageDealtCounter == 1
    ensures r.isInCombat && r.isInCombatCounter == IN_COMBAT_TICKS
    ensures PositionOf(r) == PositionOf(s) && r.isDying == s.isDying
  {
    var s1 := s.(currentHitpoints := Wrap32(s.currentHitpoints - damage),
                 changed := s.changed + {CurrentHitpointsChanged});
    var s2 := if s1.currentHitpoints < 0
      then s1.(currentHitpoints := 0, changed := s1.changed + {CurrentHitpointsChanged}) else s1;
    var s3 := s2.(lastDamageDealt := damage, changed := s2.changed + {LastDamageDealtChanged});
    var s4 := s3.(lastDamageDealtCounter := 1, changed := s3.changed + {LastDamageDealtCounterChanged});
    var s5 := s4.(isInCombatCounter := IN_COMBAT_TICKS, changed := s4.changed + {IsInCombatCounterChanged});
    s5.(isInCombat := true, changed := s5.changed + {IsInCombatChanged})
  }

  /** A target brought to zero hitpoints: an NPC starts dying and stops stepping; a player
      is killed (see `PlayerKilled`). */
  function Downed(s: State, kind: Kind): (r: State)
    ensures r.isDying && r.nextTileDirection == Some(NoDir)
    ensures kind.PlayerKind? ==> r == PlayerKilled(s)
    ensures PositionOf(r) == PositionOf(s) && r.currentHitpoints == s.currentHitpoints
  {
    if kind.NpcKind? then
      s.(isDying := true, nextTileDirection := Some(NoDir),
         changed := s.changed + {IsDyingChanged, NextTileDirectionChanged})
    else PlayerKilled(s)
  }

  const HIT_SOUND := "player_hit.ogg"
  const DEATH_SOUND := "man_death.ogg"

  /** The attacker's swing: a punch without a weapon, a slash with one. */
  function SwingSound(a: Side): SoundEvent {
    SoundEvent(if a.state.weapon == -1 then "punch.ogg" else "sword_slash.ogg", true, false, a.id, true)
  }

  /** The sounds and chat a hit adds after the experience: the swing, the attack event and,
      for a kill, the death sounds and the dead player's message. */
  function HitLogged(ev: Log, a: Side, t: Side, killed: bool, now: int): (r: Log)
    ensures r.attacks == ev.attacks + [AttackEvent(a.id, t.id)]
    ensures |r.sounds| == |ev.sounds| + (if !killed then 1 else if t.kind.NpcKind? then 2 else 3)
    ensures r.sounds[..|ev.sounds|] == ev.sounds && r.sounds[|ev.sounds|] == SwingSound(a)
    ensures r.chat == ev.chat + (if killed && t.kind.PlayerKind?
                                 then [ChatMessage(t.kind.username, Plain("Oh dear, you are dead!"), now, false)]
                                 else [])
  {
    var ev1 := ev.(sounds := ev.sounds + [SwingSound(a)],
                   attacks := ev.attacks + [AttackEvent(a.id, t.id)]);
    if !killed then ev1
    else if t.kind.NpcKind? then ev1.(sounds := ev1.sounds + [SoundEvent(DEATH_SOUND, true, false, a.id, true)])
    else ev1.(chat := ev1.chat + [ChatMessage(t.kind.username, Plain("Oh dear, you are dead!"), now, false)],
              sounds := ev1.sounds + [SoundEvent(DEATH_SOUND, true, false, a.id, true),
                                      SoundEvent("death.ogg", true, true, t.id, false)])
  }

  /** The end of a hit, once the target has been hit and the attacker has its experience:
      the swing and the attack event are logged; a target at zero hitpoints goes down and
      the attacker drops its target; the attacker then waits before following. */
  function Concluded(a: Side, t: Side, ev: Log, now: int): (r: (State, State, Log))
  {
    var killed := t.state.currentHitpoints <= 0;
    var a1 := if killed then TargetCleared(a.state) else a.state;
    (a1.(followCounter := FOLLOW_DELAY, changed := a1.changed + {FollowCounterChanged}),
     if killed then Downed(t.state, t.kind) else t.state,
     HitLogged(ev, a, t, killed, now))
  }

  /** `attackEntity(target)` with the hit's `damage` and the wielded weapon's attack speed
      (`None` when the attacker has no weapon data), as the attacker's new state, the
      target's new state and the tick's new events. */
  function AttackOutcome(levels: seq<int>, a: Side, t: Side, ev: Log, damage: int, weaponSpeed: Option<int>, now: int)
    : (r: (State, State, Log))
    requires |levels| == ExperienceCurve.MAX_LEVEL && CanAttack(a, damage)
    ensures AttackRefused(a, t) ==> r == (a.state, t.state, ev)
  {
    if AttackRefused(a, t) then (a.state, t.state, ev)
    else
      var a1 := Swung(a.state, PositionOf(t.state), weaponSpeed);
      var t1 := Hit(t.state, damage);
      var ev1 := if t.kind.PlayerKind? && damage > 0
                 then ev.(sounds := ev.sounds + [SoundEvent(HIT_SOUND, true, false, a.id, true)])
                 else ev;
      var (a2, ev2) := if a.kind.PlayerKind? then CombatXpAdded(levels, a1, a.kind.username, a.id, ev1, damage, now)
                       else (a1, ev1);
      Concluded(Side(a.id, a.kind, a2), Side(t.id, t.kind, t1), ev2, now)
  }

  /** What a hit does to its target: hitpoints go down by the damage and stop at zero, the
      target is in combat with the damage on show, and it is dying exactly when its
      hitpoints reached zero, in which case it no longer steps. */
  lemma AttackHitsTarget(levels: seq<int>, a: Side, t: Side, ev: Log, damage: int, weaponSpeed: Option<int>, now: int)
    requires |levels| == ExperienceCurve.MAX_LEVEL && CanAttack(a, damage) && !AttackRefused(a, t)
    requires 0 <= t.state.currentHitpoints <= INT_MAX
    ensures var r := AttackOutcome(levels, a, t, ev, damage, weaponSpeed, now).1;
      && r.currentHitpoints == Max(0, t.state.currentHitpoints - damage)
      && r.lastDamageDealt == damage && r.lastDamageDealtCounter == 1
      && r.isInCombat && r.isInCombatCounter == IN_COMBAT_TICKS
      && (r.isDying <==> t.state.currentHitpoints <= damage)
      && (r.isDying ==> r.nextTileDirection == Some(NoDir))
      && PositionOf(r) == PositionOf(t.state)
  {
    assert IsInt32(t.state.currentHitpoints - damage);
  }

  /** What a hit does to its attacker: it faces the target (unless on the same tile),
      cools down for the weapon's speed, waits before following, and drops its target
      after a kill. */
  lemma AttackSwingsAttacker(levels: seq<int>, a: Side, t: Side, ev: Log, damage: int, weaponSpeed: Option<int>, now: int)
    requires |levels| == ExperienceCurve.MAX_LEVEL && CanAttack(a, damage) && !AttackRefused(a, t)
    ensures var r := AttackOutcome(levels, a, t, ev, damage, weaponSpeed, now);
      var facing := FacingTowards(PositionOf(a.state), PositionOf(t.state));
      && r.0.attackTickCounter == Cooldown(weaponSpeed)
      && r.0.followCounter == FOLLOW_DELAY
      && (facing.Some? ==> r.0.facingDirection == facing)
      && (facing.None? ==> r.0.facingDirection == a.state.facingDirection)
      && (r.1.isDying ==> r.0.targetedEntityID.None? && TargetOf(r.0).None?)
      && (!r.1.isDying ==> r.0.targetedEntityID == a.state.targetedEntityID)
      && PositionOf(r.0) == PositionOf(a.state)
  {
  }

  /** What a hit adds to the tick's events: exactly one attack event, from the attacker to
      the target; the events already listed stay in front, and the swing sound (a punch
      without a weapon) is among the new ones. */
  lemma AttackLogsOneEvent(levels: seq<int>, a: Side, t: Side, ev: Log, damage: int, weaponSpeed: Option<int>, now: int)
    requires |levels| == ExperienceCurve.MAX_LEVEL && CanAttack(a, damage) && !AttackRefused(a, t)
    ensures var r := AttackOutcome(levels, a, t, ev, damage, weaponSpeed, now).2;
      && r.attacks == ev.attacks + [AttackEvent(a.id, t.id)]
      && |r.sounds| > |ev.sounds| && r.sounds[..|ev.sounds|] == ev.sounds
      && SwingSound(a) in r.sounds[|ev.sounds|..]
  {
    var r := AttackOutcome(levels, a, t, ev, damage, weaponSpeed, now).2;
    var a1 := Swung(a.state, PositionOf(t.state), weaponSpeed);
    var ev1 := if t.kind.PlayerKind? && damage > 0
               then ev.(sounds := ev.sounds + [SoundEvent(HIT_SOUND, true, false, a.id, true)])
               else ev;
    var ev2 := if a.kind.PlayerKind? then CombatXpAdded(levels, a1, a.kind.username, a.id, ev1, damage, now).1
               else ev1;
    var k := |ev2.sounds|;
    assert r.sounds[k] == SwingSound(a);
    assert r.sounds[..k][..|ev.sounds|] == ev.sounds;
    assert r.sounds[|ev.sounds|..][k - |ev.sounds|] == SwingSound(a);
  }

  /** A combatant: its identity and kind, its spawn tile, and the mutable fields of
      `Entity` and `Combatant` with their change flags, kept together in `st`. */
  class Combatant {
    const entityID: string
    const kind: Kind
    /** Where the entity respawns. */
    const originalWorldX: int
    const originalWorldY: int
    /** The mutable fields. */
    var st: State

    ghost function Origin(): Pos
    {
      Pos(originalWorldX, originalWorldY)
    }

    ghost function AsSide(): Side
      reads this
    {
      Side(entityID, kind, st)
    }

    /** The `Entity` and `Combatant` constructors, with the fields the `Player` and `Npc`
        constructors fill in right after them: the entity stands at (`x`, `y`), respawns
        at `origin`, faces down with no next step, and every flag is raised. */
    constructor(entityID: string, kind: Kind, x: int, y: int, origin: Pos, skills: seq<int>,
                hitpoints: int, weapon: int, shield: int, attackStyle: Option<string>)
      ensures this.entityID == entityID && this.kind == kind && Origin() == origin
      ensures st == State(x, y, Some(NoDir), Some(Down), None, None, None, None, 0, 0, 0,
                          None, None, None, 5, 1, false, skills, hitpoints, weapon, shield,
                          -1, attackStyle, false, None, 0, 0, 0, ALL_FLAGS)
    {
      this.entityID := entityID;
      this.kind := kind;
      originalWorldX := origin.x;
      originalWorldY := origin.y;
      st := State(x, y, Some(NoDir), Some(Down), None, None, None, None, 0, 0, 0,
                  None, None, None, 5, 1, false, skills, hitpoints, weapon, shield,
                  -1, attackStyle, false, None, 0, 0, 0, ALL_FLAGS);
    }

    // The setters of `Entity` and `Combatant`: each stores its value and raises its flag.

    method SetWorldX(v: int)
      modifies this
      ensures st == old(st).(worldX := v, changed := old(st.changed) + {WorldXChanged})
    {
      st := st.(worldX := v, changed := st.changed + {WorldXChanged});
    }

    method SetWorldY(v: int)
      modifies this
      ensures st == old(st).(worldY := v, changed := old(st.changed) + {WorldYChanged})
    {
      st := st.(worldY := v, changed := st.changed + {WorldYChanged});
    }

    method SetWanderRange(v: int)
      modifies this
      ensures st == old(st).(wanderRange := v, changed := old(st.changed) + {WanderRangeChanged})
    {
      st := st.(wanderRange := v, changed := st.changed + {WanderRangeChanged});
    }

    method SetInteractionRange(v: int)
      modifies this
      ensures st == old(st).(interactionRange := v, changed := old(st.changed) + {InteractionRangeChanged})
    {
      st := st.(interactionRange := v, changed := st.changed + {InteractionRangeChanged});
    }

    method SetTargetItemID(v: Option<string>)
      modifies this
      ensures st == old(st).(targetItemID := v, changed := old(st.changed) + {TargetItemIDChanged})
    {
      st := st.(targetItemID := v, changed := st.changed + {TargetItemIDChanged});
    }

    method SetTargetTile(v: Option<Pos>)
      modifies this
      ensures st == old(st).(targetTile := v, changed := old(st.changed) + {TargetTileChanged})
    {
      st := st.(targetTile := v, changed := st.changed + {TargetTileChanged});
    }

    method SetNextTileDirection(v: Option<Direction>)
      modifies this
      ensures st == old(st).(nextTileDirection := v, changed := old(st.changed) + {NextTileDirectionChanged})
    {
      st := st.(nextTileDirection := v, changed := st.changed + {NextTileDirectionChanged});
    }

    method SetFacingDirection(v: Option<Direction>)
      modifies this
      ensures st == old(st).(facingDirection := v, changed := old(st.changed) + {FacingDirectionChanged})
    {
      st := st.(facingDirection := v, changed := st.changed + {FacingDirectionChanged});
    }

    method SetNewTargetTile(v: Option<Pos>)
      modifies this
      ensures st == old(st).(newTargetTile := v, changed := old(st.changed) + {NewTargetTileChanged})
    {
      st := st.(newTargetTile := v, changed := st.changed + {NewTargetTileChanged});
    }

    method SetIsDying(v: bool)
      modifies this
      ensures st == old(st).(isDying := v, changed := old(st.changed) + {IsDyingChanged})
    {
      st := st.(isDying := v, changed := st.changed + {IsDyingChanged});
    }

    method SetFollowCounter(v: int)
      modifies this
      ensures st == old(st).(followCounter := v, changed := old(st.changed) + {FollowCounterChanged})
    {
      st := st.(followCounter := v, changed := st.changed + {FollowCounterChanged});
    }

    method SetInteractionTargetID(v: Option<string>)
      modifies this
      ensures st == old(st).(interactionTargetID := v, changed := old(st.changed) + {InteractionTargetIDChanged})
    {
      st := st.(interactionTargetID := v, changed := st.changed + {InteractionTargetIDChanged});
    }

    method SetGoalAction(v: Option<GoalAction>)
      modifies this
      ensures st == old(st).(goalAction := v, changed := old(st.changed) + {GoalActionChanged})
    {
      st := st.(goalAction := v, changed := st.changed + {GoalActionChanged});
    }

    method SetTargetEntityLastPosition(v: Option<Pos>)
      modifies this
      ensures st == old(st).(targetEntityLastPosition := v, changed := old(st.changed) + {TargetEntityLastPositionChanged})
    {
      st := st.(targetEntityLastPosition := v, changed := st.changed + {TargetEntityLastPositionChanged});
    }

    method SetDyingCounter(v: int)
      modifies this
      ensures st == old(st).(dyingCounter := v, changed := old(st.changed) + {DyingCounterChanged})
    {
      st := st.(dyingCounter := v, changed := st.changed + {DyingCounterChanged});
    }

    method SetCurrentPath(v: Option<seq<Pos>>)
      modifies this
      ensures st == old(st).(currentPath := v, changed := old(st.changed) + {CurrentPathChanged})
    {
      st := st.(currentPath := v, changed := st.changed + {CurrentPathChanged});
    }

    method SetTargetedEntityID(v: Option<string>)
      modifies this
      ensures st == old(st).(targetedEntityID := v, changed := old(st.changed) + {TargetedEntityIDChanged})
    {
      st := st.(targetedEntityID := v, changed := st.changed + {TargetedEntityIDChanged});
    }

    method SetSkills(v: seq<int>)
      modifies this
      ensures st == old(st).(skills := v, changed := old(st.changed) + {SkillsChanged})
    {
      st := st.(skills := v, changed := st.changed + {SkillsChanged});
    }

    method SetCurrentHitpoints(v: int)
      modifies this
      ensures st == old(st).(currentHitpoints := v, changed := old(st.changed) + {CurrentHitpointsChanged})
    {
      st := st.(currentHitpoints := v, changed := st.changed + {CurrentHitpointsChanged});
    }

    method SetLastDamageDealt(v: int)
      modifies this
      ensures st == old(st).(lastDamageDealt := v, changed := old(st.changed) + {LastDamageDealtChanged})
    {
      st := st.(lastDamageDealt := v, changed := st.changed + {LastDamageDealtChanged});
    }

    method SetLastDamageDealtCounter(v: int)
      modifies this
      ensures st == old(st).(lastDamageDealtCounter := v, changed := old(st.changed) + {LastDamageDealtCounterChanged})
    {
      st := st.(lastDamageDealtCounter := v, changed := st.changed + {LastDamageDealtCounterChanged});
    }

    method SetAttackTickCounter(v: int)
      modifies this
      ensures st == old(st).(attackTickCounter := v, changed := old(st.changed) + {AttackTickCounterChanged})
    {
      st := st.(attackTickCounter := v, changed := st.changed + {AttackTickCounterChanged});
    }

    method SetIsInCombatCounter(v: int)
      modifies this
      ensures st == old(st).(isInCombatCounter := v, changed := old(st.changed) + {IsInCombatCounterChanged})
    {
      st := st.(isInCombatCounter := v, changed := st.changed + {IsInCombatCounterChanged});
    }

    method SetAttackStyle(v: Option<string>)
      modifies this
      ensures st == old(st).(attackStyle := v, changed := old(st.changed) + {AttackStyleChanged})
    {
      st := st.(attackStyle := v, changed := st.changed + {AttackStyleChanged});
    }

    method SetWeapon(v: int)
      modifies this
      ensures st == old(st).(weapon := v, changed := old(st.changed) + {WeaponChanged})
    {
      st := st.(weapon := v, changed := st.changed + {WeaponChanged});
    }

    method SetShield(v: int)
      modifies this
      ensures st == old(st).(shield := v, changed := old(st.changed) + {ShieldChanged})
    {
      st := st.(shield := v, changed := st.changed + {ShieldChanged});
    }

    method SetIsInCombat(v: bool)
      modifies this
      ensures st == old(st).(isInCombat := v, changed := old(st.changed) + {IsInCombatChanged})
    {
      st := st.(isInCombat := v, changed := st.changed + {IsInCombatChanged});
    }

    /** `move` */
    method Move(p: Pos)
      modifies this
      ensures st == Located(old(st), p)
    {
      SetWorldX(p.x);
      SetWorldY(p.y);
    }

    /** `moveToNextTile`. A `null` direction would make the source's `switch` throw. */
    method MoveToNextTile()
      requires st.nextTileDirection.Some?
      modifies this
      ensures st == Stepped(old(st))
    {
      match st.nextTileDirection.value
      case Up => Move(Pos(st.worldX, st.worldY - 1));
      case Down => Move(Pos(st.worldX, st.worldY + 1));
      case Left => Move(Pos(st.worldX - 1, st.worldY));
      case Right => Move(Pos(st.worldX + 1, st.worldY));
      case _ =>
    }

    /** `stopAllMovement` */
    method StopAllMovement()
      modifies this
      ensures st == Stopped(old(st))
    {
      SetNewTargetTile(None);
      SetTargetTile(None);
      SetNextTileDirection(Some(NoDir));
    }

    /** `clearTarget` */
    method ClearTarget()
      modifies this
      ensures st == TargetCleared(old(st))
    {
      SetTargetedEntityID(None);
      SetTargetTile(None);
      SetNewTargetTile(None);
    }

    /** Two-argument `moveAlongPath`. Removing the head of an empty path would throw. */
    method MoveAlongPath(next: Pos, nextNext: Pos)
      requires st.currentPath.Some? && |st.currentPath.value| >= 1
      modifies this
      ensures st == AlongPath(old(st), next, nextNext)
    {
      var d := GetDirection(nextNext.x - next.x, nextNext.y - next.y);
      SetNextTileDirection(d);
      SetFacingDirection(d);
      st := st.(currentPath := Some(st.currentPath.value[1..]));
    }

    /** One-argument `moveAlongPath`: the last step. */
    method MoveAlongPathLast()
      modifies this
      ensures st == PathFinished(old(st))
    {
      SetNextTileDirection(Some(NoDir));
      SetTargetTile(None);
      st := st.(currentPath := None);
    }

    /** `isTargetTileNotWithinWanderArea`. With a new target tile but no current one the
        source dereferences `null`. */
    function IsTargetTileNotWithinWanderArea(): (outside: bool)
      reads this
      requires st.newTargetTile.Some? ==> st.targetTile.Some?
      ensures outside <==> st.targetTile.Some? && OutsideWanderArea(st.targetTile.value, Pos(originalWorldX, originalWorldY), st.wanderRange)
    {
      var current := TargetOf(st);
      if current.None? then false
      else (Abs(st.targetTile.value.x - originalWorldX) > st.wanderRange
            || Abs(st.targetTile.value.y - originalWorldY) > st.wanderRange)
    }

    /** `isOneStepAwayFromTarget` of players and NPCs, with the target's tile looked up by
        the caller (`None` when the world has no entity with the targeted id). */
    function IsOneStepAwayFromTarget(target: Option<Pos>): (r: bool)
      reads this
      ensures r <==> target.Some? && Manhattan(PositionOf(st), target.value) == 1
    {
      match target
      case None => false
      case Some(t) => OneStepAwayIsAdjacent(PositionOf(st), t); OneStepAway(PositionOf(st), t)
    }

    /** `setAttackTargetTile` (see `Retargeted`), with the tile beside the target as
        `getPositionOneTileAwayFromTarget` may pick it on the map `m`. */
    method SetAttackTargetTile(ghost m: Tiles.TileMap, seen: Option<Pos>, approach: Option<Pos>)
      requires Tiles.Valid(m)
      requires seen.Some? && st.targetEntityLastPosition != seen ==> IsApproach(m, PositionOf(st), seen.value, approach)
      modifies this
      ensures st == Retargeted(old(st), seen, approach)
    {
      if seen.None? {
        SetTargetedEntityID(None);
      } else if st.targetEntityLastPosition == seen {
      } else {
        SetTargetEntityLastPosition(seen);
        SetNewTargetTile(approach);
      }
    }

    /** `moveTowardsTarget`; returns the item a player picks up on reaching the last node
        of its path, which `Players.Player.TakeItem` then takes. */
    method MoveTowardsTarget(ghost m: Tiles.TileMap, seen: Option<Pos>, approach: Option<Pos>, found: seq<Pos>)
      returns (pickUp: Option<string>)
      requires Tiles.Valid(m) && TowardsTargetAnswers(m, st, seen, approach, found)
      modifies this
      ensures (st, pickUp) == TowardsTarget(old(st), kind, seen, approach, found)
    {
      if st.nextTileDirection.Some? {
        MoveToNextTile();
      }
      if st.targetedEntityID.Some? {
        SetAttackTargetTile(m, seen, approach);
      }
      pickUp := PursueTarget(m, found);
    }

    /** The path-finding half of `moveTowardsTarget` (see `Pursued`). */
    method PursueTarget(ghost m: Tiles.TileMap, found: seq<Pos>) returns (pickUp: Option<string>)
      requires Tiles.Valid(m)
      requires TargetOf(st).Some? && st.newTargetTile.Some? ==>
        Pathfinding.PathFound(m, PositionOf(st), TargetOf(st).value, found)
      modifies this
      ensures (st, pickUp) == Pursued(old(st), kind, found)
    {
      var target := TargetOf(st);
      if target.None? {
        return None;
      }
      if st.newTargetTile.Some? {
        st := st.(currentPath := Some(found));
        if |found| < 2 {
          st := st.(currentPath := None);
          StopAllMovement();
          return None;
        }
        SetTargetTile(st.newTargetTile);
        SetNewTargetTile(None);
        var d := GetDirection(found[1].x - st.worldX, found[1].y - st.worldY);
        SetNextTileDirection(d);
        SetFacingDirection(st.nextTileDirection);
        assert st.changed == old(st).changed +
          {TargetTileChanged, NewTargetTileChanged, NextTileDirectionChanged, FacingDirectionChanged};
        return None;
      }
      if st.currentPath.None? || |st.currentPath.value| == 0 {
        return None;
      }
      var path := st.currentPath.value;
      if |path| == 1 {
        StopAllMovement();
        return None;
      }
      if |path| == 2 {
        MoveAlongPathLast();
        if st.targetItemID.Some? && kind.PlayerKind? {
          pickUp := st.targetItemID;
          SetTargetItemID(None);
        } else {
          pickUp := None;
        }
      } else {
        MoveAlongPath(path[1], path[2]);
        pickUp := None;
      }
    }

    /** The counter part of `updateCounters` that players and NPCs share. */
    method TickCounters()
      modifies this
      ensures st == CountersTicked(old(st))
    {
      if st.attackTickCounter > 0 {
        SetAttackTickCounter(st.attackTickCounter - 1);
      }
      if st.lastDamageDealtCounter > 0 {
        SetLastDamageDealtCounter(st.lastDamageDealtCounter - 1);
      } else if st.lastDamageDealt != -1 {
        SetLastDamageDealt(-1);
      }
      if st.isInCombatCounter > 0 {
        SetIsInCombatCounter(st.isInCombatCounter - 1);
      } else if st.isInCombat {
        SetIsInCombat(false);
      }
    }

    /** `resetNpc`, also the common half of `resetPlayer`: full hitpoints for the
        hitpoints experience, back to the spawn tile, everything cleared. */
    method Respawn(levels: seq<int>)
      requires |levels| == ExperienceCurve.MAX_LEVEL && |st.skills| > HITPOINTS
      modifies this
      ensures st == Respawned(old(st), Origin(), ExperienceCurve.LevelByExp(levels, old(st).skills[HITPOINTS]))
    {
      SetCurrentHitpoints(ExperienceCurve.LevelByExp(levels, st.skills[HITPOINTS]));
      Move(Pos(originalWorldX, originalWorldY));
      ClearState();
    }

    /** The clearing half of `resetNpc` (see `Cleared`): its twelve setter calls, each
        setting a field and raising its flag, as one update. */
    method ClearState()
      modifies this
      ensures st == Cleared(old(st))
    {
      st := st.(targetTile := None, newTargetTile := None, targetedEntityID := None, targetItemID := None,
                isInCombatCounter := 0, lastDamageDealt := -1, lastDamageDealtCounter := 0,
                attackTickCounter := 0, currentPath := None, nextTileDirection := Some(NoDir),
                goalAction := None, isInCombat := false,
                changed := st.changed + {TargetTileChanged, NewTargetTileChanged, TargetedEntityIDChanged,
                                         TargetItemIDChanged, IsInCombatCounterChanged, LastDamageDealtChanged,
                                         LastDamageDealtCounterChanged, AttackTickCounterChanged,
                                         CurrentPathChanged, NextTileDirectionChanged, GoalActionChanged,
                                         IsInCombatChanged});
    }

    /** The `Entity` and `Combatant` part of `clearChangedFlags`, which players and NPCs
        both lower completely. */
    method ClearChangedFlags()
      modifies this
      ensures st == old(st).(changed := {})
    {
      st := st.(changed := {});
    }

    /** `addXp(skill, xp)` of a player. Returns `false` where the source throws for a
        negative amount, changing nothing; zero experience changes nothing either. The cap
        is applied to the mathematical sum (see `GainedXpAsWritten` for the source's
        32-bit sum). */
    method AddXp(levels: seq<int>, skill: int, xp: int, events: TickEvents, now: int) returns (accepted: bool)
      requires |levels| == ExperienceCurve.MAX_LEVEL && kind.PlayerKind? && 0 <= skill < |st.skills|
      modifies this, events
      ensures accepted <==> xp >= 0
      ensures xp <= 0 ==> st == old(st) && events.View() == old(events.View())
      ensures xp > 0 ==>
        (st, events.View()) == XpAdded(levels, old(st), kind.username, entityID, old(events.View()), skill, xp, now)
    {
      if xp < 0 {
        return false;
      }
      if xp == 0 {
        return true;
      }
      var previousLevel := ExperienceCurve.LevelByExp(levels, st.skills[skill]);
      var total := st.skills[skill] + xp;
      var currentLevel := ExperienceCurve.LevelByExp(levels, total);
      st := st.(skills := st.skills[skill := GainedXp(st.skills[skill], xp)]);
      if currentLevel > previousLevel {
        events.AddChat(ChatMessage(kind.username, LevelUp(skill, currentLevel), now, false));
        events.soundEvents := events.soundEvents + LevelUpSounds(skill, entityID);
      }
      st := st.(changed := st.changed + {SkillsChanged});
      return true;
    }

    /** `killPlayer`: the player starts dying, stops, and is told so. */
    method KillPlayer(events: TickEvents, now: int)
      requires kind.PlayerKind?
      modifies this, events
      ensures st == PlayerKilled(old(st))
      ensures events.View() == old(events.View()).(chat := old(events.chatMessages) +
        [ChatMessage(kind.username, Plain("Oh dear, you are dead!"), now, false)])
    {
      SetIsDying(true);
      StopAllMovement();
      events.AddChat(ChatMessage(kind.username, Plain("Oh dear, you are dead!"), now, false));
    }

    /** The attacker's first step in `attackEntity`: it turns towards the target's tile
        (staying as it is on the same tile) and starts its cooldown. */
    method Swing(to: Pos, weaponSpeed: Option<int>)
      modifies this
      ensures st == Swung(old(st), to, weaponSpeed)
    {
      match FacingTowards(Pos(st.worldX, st.worldY), to) {
        case Some(d) => SetFacingDirection(Some(d));
        case None =>
      }
      SetAttackTickCounter(Cooldown(weaponSpeed));
    }

    /** The target's part of a hit: hitpoints down in `int` arithmetic and clamped at
        zero, then the damage and combat markers. */
    method TakeHit(damage: int)
      modifies this
      ensures st == Hit(old(st), damage)
    {
      SetCurrentHitpoints(Wrap32(st.currentHitpoints - damage));
      if st.currentHitpoints < 0 {
        SetCurrentHitpoints(0);
      }
      ghost var s2 := st;
      assert s2.currentHitpoints == Hit(old(st), damage).currentHitpoints;
      SetLastDamageDealt(damage);
      SetLastDamageDealtCounter(1);
      SetIsInCombatCounter(IN_COMBAT_TICKS);
      SetIsInCombat(true);
    }

    /** The experience a player earns for a hit: `4 * damage` in the style's skill (no
        skill for another style), then `damage` in hitpoints. */
    method GainCombatXp(levels: seq<int>, damage: int, events: TickEvents, now: int)
      requires |levels| == ExperienceCurve.MAX_LEVEL && kind.PlayerKind?
      requires st.attackStyle.Some? && |st.skills| > HITPOINTS && 0 <= damage <= INT_MAX / 4
      modifies this, events
      ensures (st, events.View()) ==
        CombatXpAdded(levels, old(st), kind.username, entityID, old(events.View()), damage, now)
    {
      var style := StyleSkill(st.attackStyle.value);
      if style.Some? {
        var _ := AddXp(levels, style.value, 4 * damage, events, now);
      }
      var _ := AddXp(levels, HITPOINTS, damage, events, now);
    }

    /** `attackEntity(target)`: see `AttackOutcome`. The hit's damage (from `CombatUtils`) and
        the weapon's attack speed are parameters; the 400 ms retaliation the source
        schedules for an NPC target is not part of this model. The target's damage
        markers are set before the attacker's experience rather than after it, which
        changes nothing since they belong to another object. */
    method AttackEntity(levels: seq<int>, target: Combatant, events: TickEvents, damage: int,
                        weaponSpeed: Option<int>, now: int)
      requires |levels| == ExperienceCurve.MAX_LEVEL && CanAttack(AsSide(), damage)
      modifies this, target, events
      ensures (st, target.st, events.View()) ==
        AttackOutcome(levels, old(AsSide()), old(target.AsSide()), old(events.View()), damage, weaponSpeed, now)
    {
      if entityID == target.entityID || st.attackTickCounter != 0 || target.st.isDying {
        return;
      }
      Swing(Pos(target.st.worldX, target.st.worldY), weaponSpeed);
      target.TakeHit(damage);
      if target.kind.PlayerKind? && damage > 0 {
        events.AddSound(SoundEvent(HIT_SOUND, true, false, entityID, true));
      }
      if kind.PlayerKind? {
        GainCombatXp(levels, damage, events, now);
      }
      ConcludeAttack(target, events, now);
    }

    /** The target's fall at zero hitpoints (see `Downed`): an NPC starts dying and stops
        stepping; a player is killed, which also tells it so. */
    method GoDown(events: TickEvents, now: int)
      modifies this, events
      ensures st == Downed(old(st), kind)
      ensures events.View() == old(events.View()).(chat := old(events.chatMessages) +
        (if kind.PlayerKind? then [ChatMessage(kind.username, Plain("Oh dear, you are dead!"), now, false)] else []))
    {
      if kind.NpcKind? {
        SetIsDying(true);
        SetNextTileDirection(Some(NoDir));
      } else {
        KillPlayer(events, now);
      }
    }

    /** The end of `attackEntity` (see `Concluded`). The NPC target's next direction is
        cleared after the death sound rather than before it, which changes nothing since
        they are different objects. */
    method ConcludeAttack(target: Combatant, events: TickEvents, now: int)
      requires target != this
      modifies this, target, events
      ensures (st, target.st, events.View()) ==
        Concluded(old(AsSide()), old(target.AsSide()), old(events.View()), now)
    {
      ghost var a0, t0, ev0 := AsSide(), target.AsSide(), events.View();
      var swing := if st.weapon == -1 then "punch.ogg" else "sword_slash.ogg";
      events.AddSound(SoundEvent(swing, true, false, entityID, true));
      events.AddAttack(AttackEvent(entityID, target.entityID));
      var killed := target.st.currentHitpoints <= 0;
      if killed {
        ClearTarget();
        target.GoDown(events, now);
        events.AddSound(SoundEvent(DEATH_SOUND, true, false, entityID, true));
        if target.kind.PlayerKind? {
          events.AddSound(SoundEvent("death.ogg", true, true, target.entityID, false));
        }
      }
      assert events.View() == HitLogged(ev0, a0, t0, killed, now);
      SetFollowCounter(FOLLOW_DELAY);
    }
  }
}
