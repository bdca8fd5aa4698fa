/** The server's NPCs (`Npc`): a combatant with a spawn point, a respawn delay and a
    drop table. Each tick it counts down, and then either keeps talking to the entity it
    interacts with, lies dying, or waits to respawn, wanders, walks and strikes.

    What the world answers about other entities is passed in: the entity the NPC
    interacts with (`Sight`), the combatant it targets, and the random choices of the
    source (the wander tile, the dropped items) as values. */
module Npcs {
  import opened Common
  import opened Movement
  import opened Events
  import opened Entities
  import opened Items
  import ExperienceCurve
  import Tiles

  /** The change flags `Npc` adds to those of its body. */
  datatype NpcFlag = NpcIndexChanged | RespawnTickCounterChanged | IsDeadChanged | EntityStaticDataChanged

  const ALL_NPC_FLAGS: set<NpcFlag> :=
    {NpcIndexChanged, RespawnTickCounterChanged, IsDeadChanged, EntityStaticDataChanged}

  /** An item rolled from the drop table, with its amount (0 or less: a single item). */
  datatype Drop = Drop(itemID: int, amount: int)

  /** What the NPC learns about the entity it interacts with: its tile and whether it is
      dying. */
  datatype Sight = Sight(at: Pos, isDying: bool)

  /** The ground item left for one rolled drop at `at`: with its amount when that is
      positive, a single item otherwise. */
  function DropSpawn(d: Drop, at: Pos): (r: Spawn)
    ensures r.at == at && r.itemID == d.itemID
    ensures r.amount.Some? <==> d.amount > 0
    ensures r.amount.Some? ==> r.amount.value == d.amount
  {
    Spawn(d.itemID, if d.amount > 0 then Some(d.amount) else None, at)
  }

  /** The ground items left by a dying NPC at `at`: one for each of the two rolls that
      yielded a drop (`None`: a roll that yielded nothing), first roll first. */
  function Dropped(first: Option<Drop>, second: Option<Drop>, at: Pos): (r: seq<Spawn>)
    ensures |r| == (if first.Some? then 1 else 0) + (if second.Some? then 1 else 0)
    ensures first.Some? ==> r[0] == DropSpawn(first.value, at)
    ensures second.Some? ==> r[|r| - 1] == DropSpawn(second.value, at)
    ensures forall i :: 0 <= i < |r| ==> r[i].at == at
  {
    (if first.Some? then [DropSpawn(first.value, at)] else [])
    + (if second.Some? then [DropSpawn(second.value, at)] else [])
  }

  /** The body after `updateCounters`, and whether the NPC died this tick: the shared
      counters tick; a dying NPC counts up without raising the counter's flag, and once
      the counter passes five it is reset (`resetNpc`), no longer dying, with the counter
      back at 0. */
  function NpcTicked(levels: seq<int>, s: State, origin: Pos): (r: (State, bool))
    requires |levels| == ExperienceCurve.MAX_LEVEL && |s.skills| > HITPOINTS
    ensures r.1 <==> s.isDying && Wrap32(s.dyingCounter + 1) > DYING_TICKS
    ensures !s.isDying ==> r.0 == CountersTicked(s)
    ensures s.isDying && !r.1 ==>
      r.0 == CountersTicked(s).(dyingCounter := Wrap32(s.dyingCounter + 1))
    ensures r.1 ==>
      && !r.0.isDying && r.0.dyingCounter == 0 && PositionOf(r.0) == origin
      && r.0.currentHitpoints == ExperienceCurve.LevelByExp(levels, s.skills[HITPOINTS])
      && TargetOf(r.0).None? && r.0.targetedEntityID.None? && !r.0.isInCombat
    ensures s.isDying && 0 <= s.dyingCounter < DYING_TICKS ==>
      !r.1 && r.0.isDying && r.0.dyingCounter == s.dyingCounter + 1
    ensures s.isDying && s.dyingCounter == DYING_TICKS ==> r.1
    ensures r.0.skills == s.skills && r.0.interactionTargetID == s.interactionTargetID
  {
    var s1 := CountersTicked(s);
    if !s.isDying then (s1, false)
    else
      var counter := Wrap32(s.dyingCounter + 1);
      if counter > DYING_TICKS then (NpcReset(levels, s1.(dyingCounter := counter), origin), true)
      else (s1.(dyingCounter := counter), false)
  }

  /** The end of dying in `updateCounters`: `resetNpc`, then no longer dying, with the
      dying counter at 0. */
  function NpcReset(levels: seq<int>, s: State, origin: Pos): (r: State)
    requires |levels| == ExperienceCurve.MAX_LEVEL && |s.skills| > HITPOINTS
    ensures !r.isDying && r.dyingCounter == 0 && PositionOf(r) == origin
    ensures r.currentHitpoints == ExperienceCurve.LevelByExp(levels, s.skills[HITPOINTS])
    ensures TargetOf(r).None? && r.targetedEntityID.None? && !r.isInCombat
    ensures r.skills == s.skills && r.interactionTargetID == s.interactionTargetID
  {
    var s3 := Respawned(s, origin, ExperienceCurve.LevelByExp(levels, s.skills[HITPOINTS]));
    s3.(isDying := false, dyingCounter := 0, changed := s3.changed + {IsDyingChanged})
  }

  /** `n` consecutive ticks of `NpcTicked`, with whether the NPC died on any of them. */
  function NpcTickedTimes(levels: seq<int>, s: State, origin: Pos, n: nat): (r: (State, bool))
    requires |levels| == ExperienceCurve.MAX_LEVEL && |s.skills| > HITPOINTS
    ensures r.0.skills == s.skills
    decreases n
  {
    if n == 0 then (s, false)
    else
      var prev := NpcTickedTimes(levels, s, origin, n - 1);
      var t := NpcTicked(levels, prev.0, origin);
      (t.0, prev.1 || t.1)
  }

  /** A dying NPC lies dying, its counter going up by one per tick, until the counter
      reaches five... */
  lemma {:induction false} NpcDyingLastsSixTicks(levels: seq<int>, s: State, origin: Pos, n: nat)
    requires |levels| == ExperienceCurve.MAX_LEVEL && |s.skills| > HITPOINTS
    requires s.isDying && 0 <= s.dyingCounter && n + s.dyingCounter <= DYING_TICKS
    ensures var r := NpcTickedTimes(levels, s, origin, n);
      r.0.isDying && r.0.dyingCounter == s.dyingCounter + n && !r.1
    decreases n
  {
    if n > 0 {
      NpcDyingLastsSixTicks(levels, s, origin, n - 1);
      var prev := NpcTickedTimes(levels, s, origin, n - 1);
      assert NpcTickedTimes(levels, s, origin, n) ==
        (NpcTicked(levels, prev.0, origin).0, prev.1 || NpcTicked(levels, prev.0, origin).1);
    }
  }

  /** ... and on the tick after those (the `n`-th from a counter of `6 - n`) it dies:
      back on its spawn with full hitpoints, no longer dying. */
  lemma NpcDiesOnSixthTick(levels: seq<int>, s: State, origin: Pos, n: nat)
    requires |levels| == ExperienceCurve.MAX_LEVEL && |s.skills| > HITPOINTS
    requires s.isDying && 0 <= s.dyingCounter && 1 <= n && n + s.dyingCounter == DYING_TICKS + 1
    ensures var r := NpcTickedTimes(levels, s, origin, n);
      && r.1 && !r.0.isDying && r.0.dyingCounter == 0 && PositionOf(r.0) == origin
      && r.0.currentHitpoints == ExperienceCurve.LevelByExp(levels, s.skills[HITPOINTS])
  {
    NpcDyingLastsSixTicks(levels, s, origin, n - 1);
    NpcTickedTimesStep(levels, s, origin, n - 1);
    var prev := NpcTickedTimes(levels, s, origin, n - 1);
    NpcDiesNow(levels, prev.0, origin);
  }

  /** One more tick of `NpcTickedTimes`. */
  lemma NpcTickedTimesStep(levels: seq<int>, s: State, origin: Pos, n: nat)
    requires |levels| == ExperienceCurve.MAX_LEVEL && |s.skills| > HITPOINTS
    ensures var prev := NpcTickedTimes(levels, s, origin, n);
      var t := NpcTicked(levels, prev.0, origin);
      NpcTickedTimes(levels, s, origin, n + 1) == (t.0, prev.1 || t.1)
  {
  }

  /** The tick that ends dying. */
  lemma NpcDiesNow(levels: seq<int>, p: State, origin: Pos)
    requires |levels| == ExperienceCurve.MAX_LEVEL && |p.skills| > HITPOINTS
    requires p.isDying && p.dyingCounter == DYING_TICKS
    ensures var t := NpcTicked(levels, p, origin);
      && t.1 && !t.0.isDying && t.0.dyingCounter == 0 && PositionOf(t.0) == origin
      && t.0.currentHitpoints == ExperienceCurve.LevelByExp(levels, p.skills[HITPOINTS])
  {
  }

  /** The interaction branch of `update`, for an NPC with an interaction target: the
      target is dropped when it is missing, dying, or outside the square of half-width
      `interactionRange`; otherwise the NPC turns to it and stops. */
  function Interacted(s: State, sight: Option<Sight>): (r: State)
    ensures sight.None? || sight.value.isDying || !WithinSquare(PositionOf(s), sight.value.at, s.interactionRange) ==>
      r == s.(interactionTargetID := None, changed := s.changed + {InteractionTargetIDChanged})
    ensures sight.Some? && !sight.value.isDying && WithinSquare(PositionOf(s), sight.value.at, s.interactionRange) ==>
      && r == Stopped(Faced(s, sight.value.at))
      && TargetOf(r).None? && r.nextTileDirection == Some(NoDir) && PositionOf(r) == PositionOf(s)
  {
    match sight
    case None => s.(interactionTargetID := None, changed := s.changed + {InteractionTargetIDChanged})
    case Some(e) =>
      if e.isDying then s.(interactionTargetID := None, changed := s.changed + {InteractionTargetIDChanged})
      else if e.at.x < s.worldX - s.interactionRange || e.at.x > s.worldX + s.interactionRange
           || e.at.y < s.worldY - s.interactionRange || e.at.y > s.worldY + s.interactionRange
      then s.(interactionTargetID := None, changed := s.changed + {InteractionTargetIDChanged})
      else Stopped(Faced(s, e.at))
  }

  /** The respawn wait of `update`: a dead NPC counts up to `respawnTime`, then comes
      back with the counter at 0. Returns the new `isDead` and counter. */
  function Respawning(isDead: bool, counter: int, respawnTime: int): (r: (bool, int))
  {
    if !isDead then (false, counter)
    else if counter < respawnTime then (true, counter + 1)
    else (false, 0)
  }

  /** `n` ticks of `Respawning`. */
  function RespawningTimes(isDead: bool, counter: int, respawnTime: int, n: nat): (bool, int)
    decreases n
  {
    if n == 0 then (isDead, counter)
    else
      var prev := RespawningTimes(isDead, counter, respawnTime, n - 1);
      Respawning(prev.0, prev.1, respawnTime)
  }

  /** An NPC that has just died stays dead for `respawnTime` ticks, counting them... */
  lemma {:induction false} DeadWhileCounting(respawnTime: int, n: nat)
    requires n <= respawnTime
    ensures RespawningTimes(true, 0, respawnTime, n) == (true, n)
    decreases n
  {
    if n > 0 {
      DeadWhileCounting(respawnTime, n - 1);
    }
  }

  /** ... and is back, with the counter at 0, on the tick after them. */
  lemma BackAfterRespawnTime(respawnTime: nat)
    ensures RespawningTimes(true, 0, respawnTime, respawnTime + 1) == (false, 0)
  {
    DeadWhileCounting(respawnTime, respawnTime);
  }

  /** Lines 132-142 of `update`: a targetless NPC may pick a wander tile (`pick`: the
      tile `setNewTargetTileWithingWanderArea` chose, `None` when the 5% roll failed or
      the tile collides); a target tile outside the wander area makes it drop its target
      and pick again (`repick`). */
  function Wandered(s: State, origin: Pos, pick: Option<Pos>, repick: Option<Pos>): (r: State)
    ensures var s1 := if s.targetedEntityID.None? && pick.Some?
                      then s.(newTargetTile := pick, changed := s.changed + {NewTargetTileChanged}) else s;
      && (s1.targetTile.Some? && OutsideWanderArea(s1.targetTile.value, origin, s1.wanderRange) ==>
            r.targetedEntityID.None? && (repick.Some? ==> r.newTargetTile == repick)
            && (repick.None? ==> r.newTargetTile == s1.newTargetTile))
      && (!(s1.targetTile.Some? && OutsideWanderArea(s1.targetTile.value, origin, s1.wanderRange)) ==> r == s1)
    ensures PositionOf(r) == PositionOf(s) && r.targetTile == s.targetTile && r.isDying == s.isDying
  {
    var s1 := if s.targetedEntityID.None? && pick.Some?
              then s.(newTargetTile := pick, changed := s.changed + {NewTargetTileChanged}) else s;
    if s1.targetTile.Some? && OutsideWanderArea(s1.targetTile.value, origin, s1.wanderRange) then
      var s2 := s1.(targetedEntityID := None, changed := s1.changed + {TargetedEntityIDChanged});
      if repick.Some? then s2.(newTargetTile := repick, changed := s2.changed + {NewTargetTileChanged}) else s2
    else s1
  }

  /** Lines 144-152 of `update`: an NPC with a target waits out its follow delay, and
      otherwise walks towards its target (`TowardsTarget`). */
  function Advanced(s: State, seen: Option<Pos>, approach: Option<Pos>, found: seq<Pos>): (r: State)
    ensures s.targetedEntityID.Some? && s.followCounter > 0 ==>
      r == s.(followCounter := s.followCounter - 1, changed := s.changed + {FollowCounterChanged})
    ensures !(s.targetedEntityID.Some? && s.followCounter > 0) ==>
      r == TowardsTarget(s, NpcKind, seen, approach, found).0
  {
    if s.targetedEntityID.Some? && s.followCounter > 0
    then s.(followCounter := s.followCounter - 1, changed := s.changed + {FollowCounterChanged})
    else TowardsTarget(s, NpcKind, seen, approach, found).0
  }

  /** A waiting follower is not moved: the delay only counts down. */
  lemma WaitingFollowerStays(s: State, seen: Option<Pos>, approach: Option<Pos>, found: seq<Pos>)
    requires s.targetedEntityID.Some? && s.followCounter > 0
    ensures PositionOf(Advanced(s, seen, approach, found)) == PositionOf(s)
    ensures Advanced(s, seen, approach, found).followCounter == s.followCounter - 1
  {
  }

  /** The end of an NPC's attack: it stops and faces the tile `at`. */
  function Turned(s: State, at: Pos): (r: State)
    ensures TargetOf(r).None? && r.nextTileDirection == Some(NoDir)
    ensures r.facingDirection == Some(DirectionTowardsTile(PositionOf(s), at))
    ensures PositionOf(r) == PositionOf(s) && r.skills == s.skills
    ensures FacingDirectionChanged in r.changed
  {
    var stopped := Stopped(s);
    stopped.(facingDirection := Some(DirectionTowardsTile(PositionOf(stopped), at)),
             changed := stopped.changed + {FacingDirectionChanged})
  }

  /** The attack at the end of `update`, against a target one step away: the attack's
      outcome, after which the NPC stops and faces the target's tile. */
  function Struck(levels: seq<int>, a: Side, t: Side, ev: Log, damage: int, weaponSpeed: Option<int>, now: int)
    : (r: (State, State, Log))
    requires |levels| == ExperienceCurve.MAX_LEVEL && CanAttack(a, damage)
    ensures var o := AttackOutcome(levels, a, t, ev, damage, weaponSpeed, now);
      && r.1 == o.1 && r.2 == o.2
      && TargetOf(r.0).None? && r.0.nextTileDirection == Some(NoDir)
      && r.0.facingDirection == Some(DirectionTowardsTile(PositionOf(o.0), PositionOf(o.1)))
      && PositionOf(r.0) == PositionOf(a.state)
  {
    var o := AttackOutcome(levels, a, t, ev, damage, weaponSpeed, now);
    (Turned(o.0, PositionOf(o.1)), o.1, o.2)
  }

  /** What `update` does after `updateCounters` and before its attack, to the body `s`,
      `isDead` and the respawn counter; the last component says whether the NPC walked.
      An NPC with an interaction target only deals with it (`Interacted`); a dying NPC
      does nothing; any other NPC, including one that died this very tick, counts
      towards its respawn, wanders and walks. */
  function Acted(s: State, origin: Pos, dead: bool, counter: int, respawnTime: int,
                 sight: Option<Sight>, pick: Option<Pos>, repick: Option<Pos>,
                 seen: Option<Pos>, approach: Option<Pos>, found: seq<Pos>): (r: (State, bool, int, bool))
    ensures r.3 <==> s.interactionTargetID.None? && !s.isDying
    ensures !r.3 ==> r.1 == dead && r.2 == counter && PositionOf(r.0) == PositionOf(s)
    ensures s.interactionTargetID.Some? ==> r.0 == Interacted(s, sight)
    ensures s.interactionTargetID.None? && s.isDying ==> r.0 == s
    ensures r.3 ==>
      && (r.1, r.2) == Respawning(dead, counter, respawnTime)
      && r.0 == Advanced(Wandered(s, origin, pick, repick), seen, approach, found)
    ensures r.0.skills == s.skills
  {
    if s.interactionTargetID.Some? then (Interacted(s, sight), dead, counter, false)
    else if s.isDying then (s, dead, counter, false)
    else
      var d := Respawning(dead, counter, respawnTime);
      (Advanced(Wandered(s, origin, pick, repick), seen, approach, found), d.0, d.1, true)
  }

  /** The answers the walking branch of `update` gets for the state `s` it starts from:
      where the NPC walks (it is neither talking nor dying, and not waiting out its
      follow counter), the tile beside its target and the path are ones
      `getPositionOneTileAwayFromTarget` and `findPath` may give on the map `m` (see
      `TowardsTargetAnswers`). */
  ghost predicate ActAnswers(m: Tiles.TileMap, s: State, origin: Pos, pick: Option<Pos>, repick: Option<Pos>,
                             seen: Option<Pos>, approach: Option<Pos>, found: seq<Pos>)
    requires Tiles.Valid(m)
  {
    var w := Wandered(s, origin, pick, repick);
    s.interactionTargetID.None? && !s.isDying && !(w.targetedEntityID.Some? && w.followCounter > 0) ==>
      TowardsTargetAnswers(m, w, seen, approach, found)
  }

  /** Whether the attack step of `update` attacks: the NPC has a target, the world has
      it, at `at`, and it is one orthogonal step away. */
  predicate Strikes(s: State, at: Option<Pos>) {
    s.targetedEntityID.Some? && at.Some? && Manhattan(PositionOf(s), at.value) == 1
  }

  class Npc {
    /** The `Entity` and `Combatant` part of the NPC. */
    const body: Combatant
    const npcIndex: int
    /** Ticks a dead NPC waits before it is back. */
    const respawnTime: int
    var respawnTickCounter: int
    var isDead: bool
    var changed: set<NpcFlag>

    ghost predicate Valid()
      reads this, body
    {
      body.kind == NpcKind && |body.st.skills| > HITPOINTS
    }

    /** The constructor: the NPC of type `npcIndex` stands at, and respawns at, `at`, with
        the skills and respawn time of its static data and full hitpoints. The random
        entity id is a parameter; static data that cannot be found (an exception in the
        source) is not modelled. */
    constructor(levels: seq<int>, entityID: string, npcIndex: int, at: Pos, skills: seq<int>, respawnTime: int)
      requires |levels| == ExperienceCurve.MAX_LEVEL && |skills| > HITPOINTS
      ensures Valid() && fresh(body)
      ensures body.entityID == entityID && body.Origin() == at && PositionOf(body.st) == at
      ensures body.st.skills == skills
      ensures body.st.currentHitpoints == ExperienceCurve.LevelByExp(levels, skills[HITPOINTS])
      ensures this.npcIndex == npcIndex && this.respawnTime == respawnTime
      ensures respawnTickCounter == 0 && !isDead && changed == ALL_NPC_FLAGS
    {
      body := new Combatant(entityID, NpcKind, at.x, at.y, at, skills,
                            ExperienceCurve.LevelByExp(levels, skills[HITPOINTS]), -1, -1, None);
      this.npcIndex := npcIndex;
      this.respawnTime := respawnTime;
      respawnTickCounter := 0;
      isDead := false;
      changed := ALL_NPC_FLAGS;
    }

    /** `clearChangedFlags`: every flag of the NPC and of its body is lowered. */
    method ClearChangedFlags()
      modifies this, body
      ensures body.st == old(body.st).(changed := {}) && changed == {}
      ensures respawnTickCounter == old(respawnTickCounter) && isDead == old(isDead)
    {
      body.ClearChangedFlags();
      changed := {};
    }

    /** `resetNpc`: full hitpoints at the spawn, everything cleared (see `Respawned`). */
    method ResetNpc(levels: seq<int>)
      requires Valid() && |levels| == ExperienceCurve.MAX_LEVEL
      modifies body
      ensures Valid()
      ensures body.st == Respawned(old(body.st), body.Origin(),
                                   ExperienceCurve.LevelByExp(levels, old(body.st).skills[HITPOINTS]))
    {
      body.Respawn(levels);
    }

    /** `updateCounters`: the body becomes that of `NpcTicked`; an NPC that dies this tick
        leaves the drops of its two rolls on its tile (`first`, `second`: both `None` for
        an NPC without a drop table) and becomes dead. */
    method UpdateCounters(levels: seq<int>, first: Option<Drop>, second: Option<Drop>)
      returns (spawned: seq<Spawn>)
      requires Valid() && |levels| == ExperienceCurve.MAX_LEVEL
      modifies this, body
      ensures Valid()
      ensures body.st == NpcTicked(levels, old(body.st), body.Origin()).0
      ensures var died := NpcTicked(levels, old(body.st), body.Origin()).1;
        && isDead == (old(isDead) || died)
        && spawned == (if died then Dropped(first, second, PositionOf(old(body.st))) else [])
      ensures respawnTickCounter == old(respawnTickCounter) && changed == old(changed)
    {
      body.TickCounters();
      spawned := [];
      if body.st.isDying {
        body.st := body.st.(dyingCounter := Wrap32(body.st.dyingCounter + 1));
        if body.st.dyingCounter > DYING_TICKS {
          spawned := Dropped(first, second, Pos(body.st.worldX, body.st.worldY));
          Die(levels);
        }
      }
    }

    /** The end of dying in `updateCounters`: reset, no longer dying, dead, counter 0. */
    method Die(levels: seq<int>)
      requires Valid() && |levels| == ExperienceCurve.MAX_LEVEL
      modifies this, body
      ensures Valid() && isDead
      ensures var s3 := Respawned(old(body.st), body.Origin(),
                                  ExperienceCurve.LevelByExp(levels, old(body.st).skills[HITPOINTS]));
        body.st == s3.(isDying := false, dyingCounter := 0, changed := s3.changed + {IsDyingChanged})
      ensures respawnTickCounter == old(respawnTickCounter) && changed == old(changed)
    {
      ResetNpc(levels);
      body.SetIsDying(false);
      isDead := true;
      body.st := body.st.(dyingCounter := 0);
    }

    /** The interaction branch of `update` (see `Interacted`). */
    method Interact(sight: Option<Sight>)
      requires body.st.interactionTargetID.Some?
      modifies body
      ensures body.st == Interacted(old(body.st), sight)
    {
      if sight.None? || sight.value.isDying {
        body.SetInteractionTargetID(None);
        return;
      }
      var e := sight.value.at;
      var range := body.st.interactionRange;
      if e.x < body.st.worldX - range || e.x > body.st.worldX + range
         || e.y < body.st.worldY - range || e.y > body.st.worldY + range {
        body.SetInteractionTargetID(None);
        return;
      }
      if e.x < body.st.worldX {
        body.SetFacingDirection(Some(Left));
      } else if e.x > body.st.worldX {
        body.SetFacingDirection(Some(Right));
      } else if e.y < body.st.worldY {
        body.SetFacingDirection(Some(Up));
      } else if e.y > body.st.worldY {
        body.SetFacingDirection(Some(Down));
      }
      body.StopAllMovement();
    }

    /** The respawn wait of `update` (see `Respawning`); it raises no flag. */
    method CountRespawn()
      modifies this
      ensures (isDead, respawnTickCounter) == Respawning(old(isDead), old(respawnTickCounter), respawnTime)
      ensures changed == old(changed)
    {
      if isDead {
        if respawnTickCounter < respawnTime {
          respawnTickCounter := respawnTickCounter + 1;
        } else {
          respawnTickCounter := 0;
          isDead := false;
        }
      }
    }

    /** Lines 132-142 of `update` (see `Wandered`). */
    method Wander(pick: Option<Pos>, repick: Option<Pos>)
      modifies body
      ensures body.st == Wandered(old(body.st), body.Origin(), pick, repick)
    {
      if body.st.targetedEntityID.None? && pick.Some? {
        body.SetNewTargetTile(pick);
      }
      if body.st.targetTile.Some? && body.IsTargetTileNotWithinWanderArea() {
        body.SetTargetedEntityID(None);
        if repick.Some? {
          body.SetNewTargetTile(repick);
        }
      }
    }

    /** Lines 144-152 of `update` (see `Advanced`). */
    method Advance(ghost m: Tiles.TileMap, seen: Option<Pos>, approach: Option<Pos>, found: seq<Pos>)
      requires Valid() && Tiles.Valid(m)
      requires !(body.st.targetedEntityID.Some? && body.st.followCounter > 0) ==>
        TowardsTargetAnswers(m, body.st, seen, approach, found)
      modifies body
      ensures Valid()
      ensures body.st == Advanced(old(body.st), seen, approach, found)
    {
      if body.st.targetedEntityID.Some? && body.st.followCounter > 0 {
        body.SetFollowCounter(body.st.followCounter - 1);
      } else {
        var _ := body.MoveTowardsTarget(m, seen, approach, found);
      }
    }

    /** Lines 154-163 of `update`: with a target one step away, the NPC attacks it, stops
        and faces it (see `Struck`); otherwise nothing happens. `target` is the targeted
        combatant, `null` when the world has none with that id. */
    method Strike(levels: seq<int>, target: Combatant?, events: TickEvents, damage: int,
                  weaponSpeed: Option<int>, now: int)
      requires Valid() && |levels| == ExperienceCurve.MAX_LEVEL && target != body
      requires 0 <= damage <= INT_MAX / 4
      modifies body, target, events
      ensures Valid()
      ensures var at := if target == null then None else Some(PositionOf(old(target.st)));
        && (!Strikes(old(body.st), at) ==>
              && body.st == old(body.st) && events.View() == old(events.View())
              && (target != null ==> target.st == old(target.st)))
        && (Strikes(old(body.st), at) ==>
              (body.st, target.st, events.View()) ==
                Struck(levels, old(body.AsSide()), old(target.AsSide()), old(events.View()), damage, weaponSpeed, now))
    {
      if body.st.targetedEntityID.None? || target == null {
        return;
      }
      if body.IsOneStepAwayFromTarget(Some(Pos(target.st.worldX, target.st.worldY))) {
        body.AttackEntity(levels, target, events, damage, weaponSpeed, now);
        Turn(Pos(target.st.worldX, target.st.worldY));
      }
    }

    /** `update` up to its attack (see `NpcTicked` and `Acted`); `walked` says whether it got past the
        interaction and dying branches. */
    method Prepare(ghost m: Tiles.TileMap, levels: seq<int>, first: Option<Drop>, second: Option<Drop>,
                   sight: Option<Sight>, pick: Option<Pos>, repick: Option<Pos>, seen: Option<Pos>,
                   approach: Option<Pos>, found: seq<Pos>)
      returns (spawned: seq<Spawn>, walked: bool)
      requires Valid() && |levels| == ExperienceCurve.MAX_LEVEL && Tiles.Valid(m)
      requires ActAnswers(m, NpcTicked(levels, body.st, body.Origin()).0, body.Origin(), pick, repick,
                          seen, approach, found)
      modifies this, body
      ensures Valid()
      ensures var t := NpcTicked(levels, old(body.st), body.Origin());
        spawned == (if t.1 then Dropped(first, second, PositionOf(old(body.st))) else [])
      ensures var t := NpcTicked(levels, old(body.st), body.Origin());
        (body.st, isDead, respawnTickCounter, walked) ==
          Acted(t.0, body.Origin(), old(isDead) || t.1, old(respawnTickCounter), respawnTime,
                sight, pick, repick, seen, approach, found)
      ensures changed == old(changed)
    {
      spawned := UpdateCounters(levels, first, second);
      walked := Act(m, sight, pick, repick, seen, approach, found);
    }

    /** The branches of `update` after `updateCounters` and before the attack (see
        `Acted`). */
    method Act(ghost m: Tiles.TileMap, sight: Option<Sight>, pick: Option<Pos>, repick: Option<Pos>,
               seen: Option<Pos>, approach: Option<Pos>, found: seq<Pos>)
      returns (walked: bool)
      requires Valid() && Tiles.Valid(m)
      requires ActAnswers(m, body.st, body.Origin(), pick, repick, seen, approach, found)
      modifies this, body
      ensures Valid()
      ensures (body.st, isDead, respawnTickCounter, walked) ==
        Acted(old(body.st), body.Origin(), old(isDead), old(respawnTickCounter), respawnTime,
              sight, pick, repick, seen, approach, found)
      ensures changed == old(changed)
    {
      walked := false;
      if body.st.interactionTargetID.Some? {
        Interact(sight);
        return;
      }
      if body.st.isDying {
        return;
      }
      CountRespawn();
      Wander(pick, repick);
      Advance(m, seen, approach, found);
      walked := true;
    }

    /** `update`, one tick of the NPC. The world's answers are parameters: the rolls of a
        dying NPC's drop table (`first`, `second`), what it sees of the entity it interacts
        with (`sight`), the wander tiles picked (`pick`, `repick`), the combatant it
        targets (`target`, `null` when the world has none), the free tile next to it
        (`approach`), the path-finder's answer (`found`) and what the attack deals. The
        last two are ones `getPositionOneTileAwayFromTarget` and `findPath` may give on
        the world's map `m` (see `ActAnswers`). */
    method Update(ghost m: Tiles.TileMap, levels: seq<int>, first: Option<Drop>, second: Option<Drop>, sight: Option<Sight>,
                  pick: Option<Pos>, repick: Option<Pos>, approach: Option<Pos>, found: seq<Pos>,
                  target: Combatant?, events: TickEvents, damage: int, weaponSpeed: Option<int>, now: int)
      returns (spawned: seq<Spawn>)
      requires Valid() && |levels| == ExperienceCurve.MAX_LEVEL && target != body && Tiles.Valid(m)
      requires 0 <= damage <= INT_MAX / 4
      requires ActAnswers(m, NpcTicked(levels, body.st, body.Origin()).0, body.Origin(), pick, repick,
                          if target == null then None else Some(PositionOf(target.st)), approach, found)
      modifies this, body, target, events
      ensures Valid()
      ensures var t := NpcTicked(levels, old(body.st), body.Origin());
        spawned == (if t.1 then Dropped(first, second, PositionOf(old(body.st))) else [])
      ensures var at := if target == null then None else Some(PositionOf(old(target.st)));
        var t := NpcTicked(levels, old(body.st), body.Origin());
        var u := Acted(t.0, body.Origin(), old(isDead) || t.1, old(respawnTickCounter),
                       respawnTime, sight, pick, repick, at, approach, found);
        && isDead == u.1 && respawnTickCounter == u.2 && changed == old(changed)
        && (!(u.3 && Strikes(u.0, at)) ==>
              && body.st == u.0 && events.View() == old(events.View())
              && (target != null ==> target.st == old(target.st)))
        && (u.3 && Strikes(u.0, at) ==>
              (body.st, target.st, events.View()) ==
                Struck(levels, Side(body.entityID, NpcKind, u.0), old(target.AsSide()), old(events.View()),
                       damage, weaponSpeed, now))
    {
      var seen := if target == null then None else Some(PositionOf(target.st));
      var walked;
      spawned, walked := Prepare(m, levels, first, second, sight, pick, repick, seen, approach, found);
      if walked {
        Strike(levels, target, events, damage, weaponSpeed, now);
      }
    }

    /** The NPC stops and faces `at` (see `Turned`). */
    method Turn(at: Pos)
      modifies body
      ensures body.st == Turned(old(body.st), at)
    {
      body.StopAllMovement();
      body.SetFacingDirection(Some(DirectionTowardsTile(Pos(body.st.worldX, body.st.worldY), at)));
    }
  }
}
