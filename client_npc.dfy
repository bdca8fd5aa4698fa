/** The client's view of one NPC: the snapshot fields each server update overwrites,
    the death latch, and what one animation frame does to its timers, the shared attack
    list and its place on the ground. The easing curves and swings are written out; the
    sine and square root they use are the platform's, passed in as parameters. */
module ClientNpcs {
  import opened Common
  import opened Events
  import opened ClientGeometry
  import opened ClientScene
  import opened ClientTiles
  import Transfer
  import Entities

  /** `DEATH_DURATION` and `ATTACK_DURATION`, in seconds. */
  const DEATH_DURATION: real := 0.6
  const ATTACK_DURATION: real := 0.25
  /** `SPEED` in tiles per second and `STOP_RADIUS` in tiles. */
  const SPEED: real := 1.6
  const STOP_RADIUS: real := 0.08
  /** How far the model may stray from its tile before it is snapped back. */
  const DRIFT_LIMIT: real := 0.001
  /** The pitch and roll of a corpse. */
  const CORPSE_PITCH: real := -PI / 2.2
  const CORPSE_ROLL: real := 0.25

  // ---------------------------------------------------------------------------------
  // State

  /** The rotation about x of each limb. */
  datatype Limbs = Limbs(leftArm: real, rightArm: real, leftLeg: real, rightLeg: real)

  /** The model's rotation (`rotation.x`, `.y`, `.z`) and its limbs'. The yaw can
      become `NaN` (a facing without a yaw), so it is a `Num`. */
  datatype Pose = Pose(pitch: real, yaw: Num, roll: real, limbs: Limbs)

  /** Every rotation zero, as `resetPose` leaves it. */
  const REST_POSE: Pose := Pose(0.0, Some(0.0), 0.0, Limbs(0.0, 0.0, 0.0, 0.0))

  /** The fields `update` copies from the server's snapshot. `undefined` is `None`. */
  datatype Snapshot = Snapshot(worldX: Option<int>, worldY: Option<int>, currentChunk: Option<int>,
                               nextTileDirection: Option<Direction>, facingDirection: Option<Direction>,
                               currentHitpoints: Option<int>, isInCombat: Option<bool>,
                               entityIndex: Option<int>, isDying: Option<bool>)

  /** The fields a frame changes: the death and attack timers, the position and the
      tile being walked to, the walk cycle's clock and the pose. */
  datatype Frame = Frame(hasDied: bool, deathTimer: real, attackTimer: real, pos: Point,
                         target: Option<Point>, walkTime: real, pose: Pose)

  /** The platform's `Math.sin` and `Math.sqrt`. */
  datatype Platform = Platform(sin: real -> real, sqrt: real -> real)

  /** The snapshot fields of a new NPC: the `Entity` defaults. */
  const INITIAL_SNAPSHOT: Snapshot :=
    Snapshot(Some(0), Some(0), Some(0), None, Some(Down), Some(0), Some(false), Some(0), Some(false))

  /** The frame fields of a new NPC: nothing running, at the origin, at rest. */
  const INITIAL_FRAME: Frame :=
    Frame(false, 0.0, 0.0, Point(Some(0.0), Some(0.0), Some(0.0)), None, 0.0, REST_POSE)

  // ---------------------------------------------------------------------------------
  // Update

  /** The type index the client keeps for a clicked NPC. The server sends it as
      `npcIndex`. */
  function WireEntityIndex(d: Transfer.NpcDto): Option<int> {
    d.npcIndex
  }

  /** The type index as the client reads it: `npc.entityIndex`, a property the server's
      DTO does not have, so the read is always `undefined`. */
  function EntityIndexAsWritten(d: Transfer.NpcDto): Option<int> {
    None
  }

  /** Whatever the server sends, the index read as written is lost, although the DTO
      carries it. */
  lemma EntityIndexAsWrittenIsLost(d: Transfer.NpcDto)
    requires d.npcIndex.Some?
    ensures EntityIndexAsWritten(d) != d.npcIndex
    ensures WireEntityIndex(d) == d.npcIndex
  {
  }

  /** What `update` leaves in the snapshot fields: every one is overwritten from the
      DTO, present or not, so a field the DTO leaves out becomes `undefined`. The DTO
      has no chunk, so that one always does. */
  function FromDto(d: Transfer.NpcDto): (s: Snapshot)
    ensures s.worldX == d.worldX && s.worldY == d.worldY && s.currentChunk == None
    ensures s.nextTileDirection == d.nextTileDirection && s.facingDirection == d.facingDirection
    ensures s.currentHitpoints == d.currentHitpoints && s.isInCombat == d.isInCombat
    ensures s.entityIndex == d.npcIndex && s.isDying == d.isDying
  {
    Snapshot(d.worldX, d.worldY, None, d.nextTileDirection, d.facingDirection,
             d.currentHitpoints, d.isInCombat, WireEntityIndex(d), d.isDying)
  }

  /** `resetPose`: with limbs, every rotation is zeroed and the death state cleared;
      without, nothing happens. */
  function Reset(f: Frame, hasLimbs: bool): Frame {
    if !hasLimbs then f else f.(pose := REST_POSE, deathTimer := 0.0, hasDied := false)
  }

  /** The frame fields after `update` with a snapshot that is, or is not, dying. */
  function AfterSnapshot(f: Frame, dying: bool, hasLimbs: bool): Frame {
    var latched := if dying && !f.hasDied then f.(deathTimer := DEATH_DURATION, hasDied := true) else f;
    if !dying && latched.hasDied then Reset(latched, hasLimbs) else latched
  }

  /** The death latch: the first dying snapshot starts the death timer; a later one
      leaves it running; a snapshot that is not dying revives the NPC at once; the walk
      and attack state are never touched. */
  lemma DeathLatch(f: Frame, dying: bool)
    ensures var r := AfterSnapshot(f, dying, true);
      && r.attackTimer == f.attackTimer && r.pos == f.pos && r.target == f.target
      && r.walkTime == f.walkTime
      && (dying && !f.hasDied ==> r.hasDied && r.deathTimer == DEATH_DURATION && r.pose == f.pose)
      && (dying && f.hasDied ==> r == f)
      && (!dying && f.hasDied ==> !r.hasDied && r.deathTimer == 0.0 && r.pose == REST_POSE)
      && (!dying && !f.hasDied ==> r == f)
  {
  }

  /** The incremental DTO of an NPC whose dying flag did not change this tick has no
      `isDying`, so an update with it revives an NPC the client thinks is dead. */
  lemma DeltaWithoutDyingRevives(v: Transfer.NpcView, f: Frame)
    requires Entities.IsDyingChanged !in v.st.changed && f.hasDied
    ensures !AfterSnapshot(f, Transfer.NpcDelta(v).isDying == Some(true), true).hasDied
  {
  }

  // ---------------------------------------------------------------------------------
  // Attack events

  /** `attackEvents.filter(e => e.attackerID === id)`. */
  function AttacksBy(events: seq<AttackEvent>, id: Option<string>): (r: seq<AttackEvent>)
    ensures forall e :: e in r <==> e in events && Some(e.attackerID) == id
  {
    if |events| == 0 then []
    else (if Some(events[0].attackerID) == id then [events[0]] else []) + AttacksBy(events[1..], id)
  }

  /** `attackEvents.filter(e => e.attackerID !== id)`. */
  function WithoutAttacker(events: seq<AttackEvent>, id: Option<string>): (r: seq<AttackEvent>)
    ensures forall e :: e in r <==> e in events && Some(e.attackerID) != id
  {
    if |events| == 0 then []
    else (if Some(events[0].attackerID) != id then [events[0]] else []) + WithoutAttacker(events[1..], id)
  }

  /** The filter keeps order: it works piece by piece. */
  lemma {:induction false} WithoutAttackerAppend(a: seq<AttackEvent>, b: seq<AttackEvent>, id: Option<string>)
    ensures WithoutAttacker(a + b, id) == WithoutAttacker(a, id) + WithoutAttacker(b, id)
  {
    if |a| > 0 {
      assert (a + b)[1..] == a[1..] + b;
      WithoutAttackerAppend(a[1..], b, id);
    } else {
      assert a + b == b;
    }
  }

  /** Every event goes to exactly one of the two filters. */
  lemma {:induction false} AttackFiltersPartition(events: seq<AttackEvent>, id: Option<string>)
    ensures |AttacksBy(events, id)| + |WithoutAttacker(events, id)| == |events|
  {
    if |events| > 0 {
      AttackFiltersPartition(events[1..], id);
    }
  }

  /** With no event of that attacker the list is left as it was. */
  lemma {:induction false} WithoutAbsentAttacker(events: seq<AttackEvent>, id: Option<string>)
    requires AttacksBy(events, id) == []
    ensures WithoutAttacker(events, id) == events
  {
    if |events| > 0 {
      assert events[0] in events;
      WithoutAbsentAttacker(events[1..], id);
      assert events == [events[0]] + events[1..];
    }
  }

  // ---------------------------------------------------------------------------------
  // One frame

  /** The turn toward the facing direction, when there is one. */
  function Turned(facing: Option<Direction>, pose: Pose, dt: real): Pose {
    if facing.Some? then pose.(yaw := TurnToward(pose.yaw, facing.value, dt)) else pose
  }

  /** `THREE.MathUtils.lerp`. */
  function Lerp(a: real, b: real, t: real): real {
    (1.0 - t) * a + t * b
  }

  function ScaleLimbs(l: Limbs, k: real): Limbs {
    Limbs(l.leftArm * k, l.rightArm * k, l.leftLeg * k, l.rightLeg * k)
  }

  /** A frame of falling: the death timer runs down and the pose eases toward the
      corpse's. */
  function Collapsed(f: Frame, dt: real): Frame {
    var timer := f.deathTimer - dt;
    var t := 1.0 - timer / DEATH_DURATION;
    var ease := t * t;
    var l := f.pose.limbs;
    f.(deathTimer := timer,
       pose := Pose(Lerp(0.0, CORPSE_PITCH, ease), f.pose.yaw, Lerp(0.0, CORPSE_ROLL, ease),
                    Limbs(Lerp(l.leftArm, -PI * 0.9, ease), Lerp(l.rightArm, -PI * 0.9, ease),
                          Lerp(l.leftLeg, PI * 0.4, ease), Lerp(l.rightLeg, PI * 0.2, ease))))
  }

  /** A frame of lying dead: the corpse pose, the limbs settling. */
  function Corpse(f: Frame): Frame {
    f.(pose := Pose(CORPSE_PITCH, f.pose.yaw, CORPSE_ROLL, ScaleLimbs(f.pose.limbs, 0.95)))
  }

  /** A frame of attacking: the attack timer runs down and the arms swing. */
  function Swung(f: Frame, dt: real, sin: real -> real): Frame {
    var timer := f.attackTimer - dt;
    var t := 1.0 - timer / ATTACK_DURATION;
    var swing := sin(t * -PI) * 1.4;
    var l := f.pose.limbs;
    f.(attackTimer := timer,
       pose := f.pose.(yaw := Plus(f.pose.yaw, Some(sin(t * PI) * 0.05)),
                       limbs := Limbs(swing * 0.25, -swing, l.leftLeg * 0.5, l.rightLeg * 0.5)))
  }

  function AddTo(n: Option<int>, k: int): Option<int> {
    if n.Some? then Some(n.value + k) else None
  }

  /** The tile the server says the NPC is stepping to: one tile from `(worldX, worldY)`
      in a straight direction, `y` growing downward; any other direction (a diagonal or
      `NONE`) names the tile itself. */
  function StepTile(x: Option<int>, y: Option<int>, d: Direction): (Option<int>, Option<int>) {
    match d
    case Up => (x, AddTo(y, -1))
    case Down => (x, AddTo(y, 1))
    case Left => (AddTo(x, -1), y)
    case Right => (AddTo(x, 1), y)
    case _ => (x, y)
  }

  /** The step tile, as `worldToTile` reads it back from its world coordinates. */
  function StepTargetTile(x: Option<int>, y: Option<int>, d: Direction): (Option<int>, Option<int>) {
    var next := StepTile(x, y, d);
    (NumToTile(FromInt(next.0)), NumToTile(FromInt(next.1)))
  }

  /** The step tile is one straight step from a known tile, or the tile itself. */
  lemma StepTileIsOneStep(x: int, y: int, d: Direction)
    ensures var (nx, ny) := StepTile(Some(x), Some(y), d);
      && nx.Some? && ny.Some?
      && (d in {Up, Down, Left, Right} ==> Abs(nx.value - x) + Abs(ny.value - y) == 1)
      && (d !in {Up, Down, Left, Right} ==> nx.value == x && ny.value == y)
  {
  }

  /** The tile a point stands on. */
  function TileOf(p: Point): (Option<int>, Option<int>) {
    (NumToTile(p.x), NumToTile(p.z))
  }

  /** Two tiles are the same: `NaN` is equal to nothing. */
  predicate SameTile(a: (Option<int>, Option<int>), b: (Option<int>, Option<int>)) {
    a.0.Some? && a.1.Some? && a == b
  }

  /** `tileToWorld`: the centre of a tile, at the ground's height there. */
  function TileCentre(tx: int, tz: int, ground: seq<seq<GroundTile>>): Point {
    Point(Some(tx as real * TILE_SIZE), Some(TileHeight(ground, tx, tz)), Some(tz as real * TILE_SIZE))
  }

  /** `THREE.MathUtils.clamp(d, -1, 1)` of a difference that may be `NaN`. */
  function ClampStep(d: Option<int>): Option<int> {
    if d.None? then None else if d.value > 1 then Some(1) else if d.value < -1 then Some(-1) else d
  }

  function Difference(a: Option<int>, b: Option<int>): Option<int> {
    if a.Some? && b.Some? then Some(a.value - b.value) else None
  }

  function Sum(a: Option<int>, b: Option<int>): Option<int> {
    if a.Some? && b.Some? then Some(a.value + b.value) else None
  }

  /** The next tile to walk to: one step, straight or diagonal, from the NPC's tile
      toward the target tile, at the ground's height there. */
  function NextTarget(npcTile: (Option<int>, Option<int>), targetTile: (Option<int>, Option<int>),
                      ground: seq<seq<GroundTile>>): Point
  {
    var nx := Sum(npcTile.0, ClampStep(Difference(targetTile.0, npcTile.0)));
    var nz := Sum(npcTile.1, ClampStep(Difference(targetTile.1, npcTile.1)));
    Point(Times(FromInt(nx), Some(TILE_SIZE)), Some(NumTileHeight(ground, nx, nz)),
          Times(FromInt(nz), Some(TILE_SIZE)))
  }

  /** The next tile is at most one tile away on each axis, and on each axis where the
      NPC is not yet level with the target it is one tile nearer. */
  lemma NextTargetStepsToward(x: int, z: int, tx: int, tz: int, ground: seq<seq<GroundTile>>)
    ensures var p := NextTarget((Some(x), Some(z)), (Some(tx), Some(tz)), ground);
      && p.x.Some? && p.z.Some?
      && -1.0 <= p.x.value - x as real <= 1.0 && -1.0 <= p.z.value - z as real <= 1.0
      && (tx > x ==> p.x.value == (x + 1) as real) && (tx < x ==> p.x.value == (x - 1) as real)
      && (tx == x ==> p.x.value == x as real)
      && (tz > z ==> p.z.value == (z + 1) as real) && (tz < z ==> p.z.value == (z - 1) as real)
      && (tz == z ==> p.z.value == z as real)
  {
  }

  /** Moving from `pos` toward `target` by `min(step, dist)`, along the direction
      normalised by `dist` (or by 1 when `dist` is 0, as `normalize` does). An unknown
      distance makes every coordinate `NaN`. */
  function Advanced(pos: Point, target: Point, dist: Num, step: real): Point {
    if dist.None? then Point(None, None, None)
    else
      var len := if dist.value == 0.0 then 1.0 else dist.value;
      var amount := if step <= dist.value then step else dist.value;
      var inv := Some(1.0 / len);
      var dir := Point(Times(Minus(target.x, pos.x), inv), Times(Minus(target.y, pos.y), inv),
                       Times(Minus(target.z, pos.z), inv));
      Point(Plus(pos.x, Times(dir.x, Some(amount))), Plus(pos.y, Times(dir.y, Some(amount))),
            Plus(pos.z, Times(dir.z, Some(amount))))
  }

  /** A frame of walking toward the next tile on the way to the server's step tile. */
  function Walk(s: Snapshot, f: Frame, dt: real, ground: seq<seq<GroundTile>>, platform: Platform): Frame
    requires s.nextTileDirection.Some?
  {
    var walkTime := f.walkTime + dt * 8.0;
    var npcTile := TileOf(f.pos);
    var targetTile := StepTargetTile(s.worldX, s.worldY, s.nextTileDirection.value);
    if SameTile(npcTile, targetTile) && f.target.None? then
      f.(walkTime := walkTime, pos := TileCentre(npcTile.0.value, npcTile.1.value, ground))
    else
      var target := if f.target.Some? then f.target.value else NextTarget(npcTile, targetTile, ground);
      Approach(f.(walkTime := walkTime, target := Some(target)), dt, platform)
  }

  /** The second half of a walking frame, once there is a tile to walk to: land on it
      when within `STOP_RADIUS`, else move toward it at `SPEED` and swing the limbs. */
  function Approach(f: Frame, dt: real, platform: Platform): Frame
    requires f.target.Some?
  {
    var target := f.target.value;
    var dist := Length(platform.sqrt, SquaredDistance(target, f.pos));
    if dist.Some? && dist.value <= STOP_RADIUS then
      f.(pos := target, target := None)
    else
      var swing := platform.sin(f.walkTime) * 0.6;
      f.(pos := Advanced(f.pos, target, dist, SPEED * dt),
         pose := f.pose.(limbs := Limbs(swing, -swing, -swing, swing)))
  }

  /** Where the server says the NPC stands. */
  function Expected(s: Snapshot, ground: seq<seq<GroundTile>>): Point {
    Point(Times(FromInt(s.worldX), Some(TILE_SIZE)), Some(NumTileHeight(ground, s.worldX, s.worldY)),
          Times(FromInt(s.worldY), Some(TILE_SIZE)))
  }

  /** A frame standing still: snapped back to the server's tile if it strayed, limbs
      settling. */
  function Settled(s: Snapshot, f: Frame, ground: seq<seq<GroundTile>>, platform: Platform): Frame {
    var expected := Expected(s, ground);
    var drift := Length(platform.sqrt, SquaredDistance(f.pos, expected));
    var snapped := if drift.Some? && drift.value > DRIFT_LIMIT then f.(pos := expected, target := None, walkTime := 0.0) else f;
    snapped.(pose := snapped.pose.(limbs := ScaleLimbs(snapped.pose.limbs, 0.8)))
  }

  /** One call of `drawNpc`: the new frame fields and the attack list it leaves. */
  function Drawn(s: Snapshot, id: Option<string>, hasLimbs: bool, f: Frame, dt: real, events: seq<AttackEvent>,
                 ground: seq<seq<GroundTile>>, platform: Platform): (Frame, seq<AttackEvent>)
  {
    if !hasLimbs then (f, events)
    else
      var turned := f.(pose := Turned(s.facingDirection, f.pose, dt));
      if turned.hasDied && turned.deathTimer > 0.0 then (Collapsed(turned, dt), events)
      else if turned.hasDied then (Corpse(turned), events)
      else
        var fire := |AttacksBy(events, id)| > 0 && turned.attackTimer <= 0.0;
        var rest := if fire then WithoutAttacker(events, id) else events;
        var armed := if fire then turned.(attackTimer := ATTACK_DURATION) else turned;
        if armed.attackTimer > 0.0 then (Swung(armed, dt, platform.sin), rest)
        else if s.nextTileDirection.Some? then (Walk(s, armed, dt, ground, platform), rest)
        else (Settled(s, armed, ground, platform), rest)
  }

  /** A dead NPC neither attacks nor walks: the attack list, the attack timer and the
      walk state are left alone; the death timer runs down while positive, and once it
      is not the corpse pose is held. */
  lemma DeathComesFirst(s: Snapshot, id: Option<string>, f: Frame, dt: real, events: seq<AttackEvent>,
                        ground: seq<seq<GroundTile>>, platform: Platform)
    requires f.hasDied
    ensures var (r, rest) := Drawn(s, id, true, f, dt, events, ground, platform);
      && rest == events && r.hasDied && r.attackTimer == f.attackTimer
      && r.pos == f.pos && r.target == f.target && r.walkTime == f.walkTime
      && (f.deathTimer > 0.0 ==> r.deathTimer == f.deathTimer - dt)
      && (f.deathTimer <= 0.0 ==> r.deathTimer == f.deathTimer && r.pose.pitch == CORPSE_PITCH
                                  && r.pose.roll == CORPSE_ROLL)
  {
  }

  /** A living NPC with an attack of its own in the list and no attack running starts
      one, and every event of that attacker is removed, the rest kept in order;
      otherwise the list is left alone. */
  lemma AttackConsumesEvents(s: Snapshot, id: Option<string>, f: Frame, dt: real, events: seq<AttackEvent>,
                             ground: seq<seq<GroundTile>>, platform: Platform)
    requires !f.hasDied
    ensures var (r, rest) := Drawn(s, id, true, f, dt, events, ground, platform);
      var fire := (exists e :: e in events && Some(e.attackerID) == id) && f.attackTimer <= 0.0;
      && (fire ==> rest == WithoutAttacker(events, id) && r.attackTimer == ATTACK_DURATION - dt)
      && (!fire ==> rest == events)
      && (!fire && f.attackTimer > 0.0 ==> r.attackTimer == f.attackTimer - dt)
      && (forall e :: e in rest ==> Some(e.attackerID) != id || !fire)
  {
    var mine := AttacksBy(events, id);
    assert |mine| > 0 ==> mine[0] in mine;
    if exists e :: e in events && Some(e.attackerID) == id {
      var e :| e in events && Some(e.attackerID) == id;
      assert e in mine;
    }
  }

  /** Once the walk reaches a point within `STOP_RADIUS` of the tile it walks to, it
      lands on that tile and looks for the next one. */
  lemma WalkStopsAtTarget(s: Snapshot, f: Frame, dt: real, ground: seq<seq<GroundTile>>, platform: Platform)
    requires s.nextTileDirection.Some? && f.target.Some? && IsSqrt(platform.sqrt)
    requires var d2 := SquaredDistance(f.target.value, f.pos); d2.Some? && d2.value <= STOP_RADIUS * STOP_RADIUS
    ensures Walk(s, f, dt, ground, platform).pos == f.target.value
    ensures Walk(s, f, dt, ground, platform).target == None
  {
    var d2 := SquaredDistance(f.target.value, f.pos).value;
    LengthWithin(platform.sqrt, d2, STOP_RADIUS);
  }

  /** A step at least as long as the way left lands exactly on the target. */
  lemma AdvanceReaches(pos: Point, target: Point, sqrt: real -> real, step: real)
    requires IsSqrt(sqrt)
    requires pos.x.Some? && pos.y.Some? && pos.z.Some? && target.x.Some? && target.y.Some? && target.z.Some?
    requires var d2 := SquaredDistance(target, pos).value; d2 > 0.0 && sqrt(d2) <= step
    ensures Advanced(pos, target, Length(sqrt, SquaredDistance(target, pos)), step) == target
  {
    var d2 := SquaredDistance(target, pos).value;
    var len := sqrt(d2);
    assert len * len == d2;
    assert len > 0.0;
    var inv := Some(1.0 / len);
    assert Advanced(pos, target, Some(len), step)
        == Point(Plus(pos.x, Times(Times(Minus(target.x, pos.x), inv), Some(len))),
                 Plus(pos.y, Times(Times(Minus(target.y, pos.y), inv), Some(len))),
                 Plus(pos.z, Times(Times(Minus(target.z, pos.z), inv), Some(len))));
    ScaledBack(pos.x.value, target.x.value, len);
    ScaledBack(pos.y.value, target.y.value, len);
    ScaledBack(pos.z.value, target.z.value, len);
  }

  /** One coordinate of a full step: the difference, normalised and scaled back by the
      same length, lands on the target. */
  lemma ScaledBack(p: real, t: real, len: real)
    requires len != 0.0
    ensures Plus(Some(p), Times(Times(Minus(Some(t), Some(p)), Some(1.0 / len)), Some(len))) == Some(t)
  {
    var r := Plus(Some(p), Times(Times(Minus(Some(t), Some(p)), Some(1.0 / len)), Some(len)));
    assert (t - p) * (1.0 / len) * len == t - p;
    assert r.Some? && r.value == t;
  }

  /** Standing still, a model that strayed more than `DRIFT_LIMIT` from the server's
      tile is put back on it and stops walking; one that did not stays where it is. */
  lemma SettleSnapsDrift(s: Snapshot, f: Frame, ground: seq<seq<GroundTile>>, platform: Platform)
    requires IsSqrt(platform.sqrt) && s.worldX.Some? && s.worldY.Some?
    requires f.pos.x.Some? && f.pos.y.Some? && f.pos.z.Some?
    ensures var d2 := SquaredDistance(f.pos, Expected(s, ground)).value;
      var r := Settled(s, f, ground, platform);
      && (d2 > DRIFT_LIMIT * DRIFT_LIMIT ==> r.pos == Expected(s, ground) && r.target == None && r.walkTime == 0.0)
      && (d2 <= DRIFT_LIMIT * DRIFT_LIMIT ==> r.pos == f.pos && r.target == f.target && r.walkTime == f.walkTime)
  {
    var d2 := SquaredDistance(f.pos, Expected(s, ground)).value;
    LengthWithin(platform.sqrt, d2, DRIFT_LIMIT);
  }

  /** Standing still with a position the server has not given (`undefined`), the drift
      is `NaN` and the model is never snapped back. */
  lemma SettleWithoutPositionKeepsPlace(s: Snapshot, f: Frame, ground: seq<seq<GroundTile>>, platform: Platform)
    requires s.worldX.None? || s.worldY.None?
    ensures Settled(s, f, ground, platform).pos == f.pos
    ensures Settled(s, f, ground, platform).target == f.target
  {
  }

  // ---------------------------------------------------------------------------------
  // The NPC object

  class ClientNpc {
    const entityID: Option<string>
    /** The world's scene, which the model joins on the first update. */
    const scene: Scene
    /** Whether the model has limbs; `setupNpc` always builds them. */
    const hasLimbs: bool

    /** The fields `update` copies from the server (`worldX` ... `isDying`). */
    var snapshot: Snapshot
    /** The fields a frame changes (`hasDied`, the timers, `model.position`,
        `currentTileTarget`, `walkTime` and the rotations). */
    var frame: Frame
    var isAddedToScene: bool

    /** The model has been added to the scene once if it is marked as added, and
        never otherwise. */
    ghost predicate AddedOnce()
      reads this`isAddedToScene, scene
    {
      multiset(scene.added)[this] == if isAddedToScene then 1 else 0
    }

    constructor(entityID: Option<string>, scene: Scene)
      ensures this.entityID == entityID && this.scene == scene && hasLimbs
      ensures snapshot == INITIAL_SNAPSHOT && frame == INITIAL_FRAME && !isAddedToScene
      ensures AddedOnce()
    {
      this.entityID := entityID;
      this.scene := scene;
      hasLimbs := true;
      snapshot := INITIAL_SNAPSHOT;
      frame := INITIAL_FRAME;
      isAddedToScene := false;
    }

    /** `resetPose`. */
    method ResetPose()
      modifies this`frame
      ensures frame == Reset(old(frame), hasLimbs)
    {
      if !hasLimbs {
        return;
      }
      frame := frame.(pose := REST_POSE, deathTimer := 0.0, hasDied := false);
    }

    /** The death latch of `update`, for a snapshot that is or is not dying. */
    method Latch(dying: bool)
      requires snapshot.isDying == Some(true) <==> dying
      modifies this`frame
      ensures frame == AfterSnapshot(old(frame), dying, hasLimbs)
    {
      if snapshot.isDying == Some(true) && !frame.hasDied {
        frame := frame.(deathTimer := DEATH_DURATION, hasDied := true);
      }
      if !dying && frame.hasDied {
        ResetPose();
      }
    }

    /** `update`: overwrite the snapshot fields, latch or clear the death state, and
        join the scene the first time. */
    method Update(d: Transfer.NpcDto)
      requires AddedOnce()
      modifies this`snapshot, this`frame, this`isAddedToScene, scene
      ensures snapshot == FromDto(d)
      ensures frame == AfterSnapshot(old(frame), d.isDying == Some(true), hasLimbs)
      ensures isAddedToScene && AddedOnce()
      ensures old(isAddedToScene) ==> scene.objects == old(scene.objects)
      ensures !old(isAddedToScene) ==> scene.objects == old(scene.objects) + {this}
      ensures scene.added == old(scene.added) + (if old(isAddedToScene) then [] else [this])
    {
      snapshot := FromDto(d);
      Latch(d.isDying == Some(true));
      if !isAddedToScene {
        scene.Add(this);
        isAddedToScene := true;
      } else {
        assert scene.added + [] == scene.added;
      }
    }

    /** The walking part of `drawNpc`. */
    method WalkFrame(dt: real, ground: seq<seq<GroundTile>>, platform: Platform)
      requires snapshot.nextTileDirection.Some?
      modifies this`frame
      ensures frame == Walk(snapshot, old(frame), dt, ground, platform)
    {
      frame := frame.(walkTime := frame.walkTime + dt * 8.0);
      var npcTile := TileOf(frame.pos);
      var targetTile := StepTargetTile(snapshot.worldX, snapshot.worldY, snapshot.nextTileDirection.value);
      if SameTile(npcTile, targetTile) && frame.target.None? {
        frame := frame.(pos := TileCentre(npcTile.0.value, npcTile.1.value, ground));
        return;
      }
      if frame.target.None? {
        frame := frame.(target := Some(NextTarget(npcTile, targetTile, ground)));
      }
      ApproachTarget(dt, platform);
    }

    /** The part of a walking frame after the tile to walk to is known. */
    method ApproachTarget(dt: real, platform: Platform)
      requires frame.target.Some?
      modifies this`frame
      ensures frame == Approach(old(frame), dt, platform)
    {
      var target := frame.target.value;
      var dist := Length(platform.sqrt, SquaredDistance(target, frame.pos));
      if dist.Some? && dist.value <= STOP_RADIUS {
        frame := frame.(pos := target, target := None);
        return;
      }
      var swing := platform.sin(frame.walkTime) * 0.6;
      frame := frame.(pos := Advanced(frame.pos, target, dist, SPEED * dt),
                      pose := frame.pose.(limbs := Limbs(swing, -swing, -swing, swing)));
    }

    /** The standing part of `drawNpc`. */
    method SettleFrame(ground: seq<seq<GroundTile>>, platform: Platform)
      modifies this`frame
      ensures frame == Settled(snapshot, old(frame), ground, platform)
    {
      var expected := Expected(snapshot, ground);
      var drift := Length(platform.sqrt, SquaredDistance(frame.pos, expected));
      if drift.Some? && drift.value > DRIFT_LIMIT {
        frame := frame.(pos := expected, target := None, walkTime := 0.0);
      }
      frame := frame.(pose := frame.pose.(limbs := ScaleLimbs(frame.pose.limbs, 0.8)));
    }

    /** The falling part of `drawNpc`. */
    method Collapse(dt: real)
      modifies this`frame
      ensures frame == Collapsed(old(frame), dt)
    {
      var deathTimer := frame.deathTimer - dt;
      var t := 1.0 - deathTimer / DEATH_DURATION;
      var ease := t * t;
      var l := frame.pose.limbs;
      frame := frame.(deathTimer := deathTimer,
                      pose := Pose(Lerp(0.0, CORPSE_PITCH, ease), frame.pose.yaw, Lerp(0.0, CORPSE_ROLL, ease),
                                   Limbs(Lerp(l.leftArm, -PI * 0.9, ease), Lerp(l.rightArm, -PI * 0.9, ease),
                                         Lerp(l.leftLeg, PI * 0.4, ease), Lerp(l.rightLeg, PI * 0.2, ease))));
    }

    /** The attacking part of `drawNpc`. */
    method Swing(dt: real, sin: real -> real)
      modifies this`frame
      ensures frame == Swung(old(frame), dt, sin)
    {
      var attackTimer := frame.attackTimer - dt;
      var t := 1.0 - attackTimer / ATTACK_DURATION;
      var swing := sin(t * -PI) * 1.4;
      var l := frame.pose.limbs;
      frame := frame.(attackTimer := attackTimer,
                      pose := frame.pose.(yaw := Plus(frame.pose.yaw, Some(sin(t * PI) * 0.05)),
                                          limbs := Limbs(swing * 0.25, -swing, l.leftLeg * 0.5, l.rightLeg * 0.5)));
    }

    /** `drawNpc(dt)`: turn, then fall or lie dead, else start or play an attack,
        else walk or stand. The world's attack list goes in as `events` and the list
        it should hold afterwards comes out. */
    method DrawNpc(dt: real, events: seq<AttackEvent>, ground: seq<seq<GroundTile>>, platform: Platform)
      returns (remaining: seq<AttackEvent>)
      modifies this`frame
      ensures (frame, remaining) == Drawn(snapshot, entityID, hasLimbs, old(frame), dt, events, ground, platform)
    {
      remaining := events;
      if !hasLimbs {
        return;
      }
      if snapshot.facingDirection.Some? {
        frame := frame.(pose := frame.pose.(yaw := TurnToward(frame.pose.yaw, snapshot.facingDirection.value, dt)));
      }
      if frame.hasDied && frame.deathTimer > 0.0 {
        Collapse(dt);
        return;
      }
      if frame.hasDied && frame.deathTimer <= 0.0 {
        frame := frame.(pose := Pose(CORPSE_PITCH, frame.pose.yaw, CORPSE_ROLL, ScaleLimbs(frame.pose.limbs, 0.95)));
        return;
      }
      var mine := AttacksBy(events, entityID);
      if |mine| > 0 && frame.attackTimer <= 0.0 {
        frame := frame.(attackTimer := ATTACK_DURATION);
        remaining := WithoutAttacker(events, entityID);
      }
      if frame.attackTimer > 0.0 {
        Swing(dt, platform.sin);
        return;
      }
      if snapshot.nextTileDirection.Some? {
        WalkFrame(dt, ground, platform);
      } else {
        SettleFrame(ground, platform);
      }
    }
  }
}
